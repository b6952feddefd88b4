/**
 * The entities of the graph model: peers (objects the caller hands to `add`),
 * directed links between peers, and the `select` events the widget emits;
 * plus the sequence facts the linear-search lookups rest on.
 */
module Model {
  import opened Wrappers

  /**
   * A peer node. Links refer to peers by object identity, so a peer is a
   * class. Only `seeder` is ever changed by the widget. `children` and
   * `parents` are optional lists of ids the caller may supply; the widget
   * itself never fills them in.
   */
  class Peer {
    const id: string
    const me: bool
    const name: string
    var seeder: bool
    const children: Option<seq<string>>
    const parents: Option<seq<string>>

    constructor (id: string, me: bool, name: string, seeder: bool,
                 children: Option<seq<string>>, parents: Option<seq<string>>)
      ensures this.id == id && this.me == me && this.name == name && this.seeder == seeder
      ensures this.children == children && this.parents == parents
    {
      this.id := id;
      this.me := me;
      this.name := name;
      this.seeder := seeder;
      this.children := children;
      this.parents := parents;
    }
  }

  /** A directed link; `rate` is absent until the first `rate` call. */
  datatype Link = Link(source: Peer, target: Peer, rate: Option<real>)

  /** A `select` event: the clicked node's id, or the `false` sentinel. */
  datatype Selection = Deselected | Selected(id: string)

  predicate Listed(ids: Option<seq<string>>, id: string) {
    ids.Some? && id in ids.value
  }

  /**
   * Adjacency used to dim the graph around a focused node: the same id, or
   * one lists the other among its children or parents. Without supplied
   * lists, a node is connected only to nodes with its own id.
   */
  predicate Connected(d: Peer, o: Peer): (r: bool)
    ensures o.id == d.id ==> r
    ensures d.children.None? && d.parents.None? && o.children.None? && o.parents.None? ==>
      (r <==> o.id == d.id)
  {
    || o.id == d.id
    || Listed(d.children, o.id)
    || Listed(o.children, d.id)
    || Listed(o.parents, d.id)
    || Listed(d.parents, o.id)
  }

  lemma ConnectedReflexive(d: Peer)
    ensures Connected(d, d)
  {
  }

  lemma ConnectedSymmetric(d: Peer, o: Peer)
    ensures Connected(d, o) <==> Connected(o, d)
  {
  }

  /** The ids of a node sequence, in order. */
  function Ids(ps: seq<Peer>): (r: seq<string>)
    ensures |r| == |ps|
    ensures forall i :: 0 <= i < |ps| ==> r[i] == ps[i].id
  {
    seq(|ps|, i requires 0 <= i < |ps| => ps[i].id)
  }

  /** The (source, target) pairs of a link sequence, in order. */
  function Pairs(ls: seq<Link>): (r: seq<(Peer?, Peer?)>)
    ensures |r| == |ls|
    ensures forall i :: 0 <= i < |ls| ==> r[i] == (ls[i].source, ls[i].target)
  {
    seq(|ls|, i requires 0 <= i < |ls| => (ls[i].source, ls[i].target))
  }

  predicate Distinct<T(==)>(s: seq<T>) {
    forall i, j :: 0 <= i < j < |s| ==> s[i] != s[j]
  }

  /** The position of the first occurrence of x in s, or -1 (a linear search's answer). */
  function IndexOf<T(==)>(s: seq<T>, x: T): (r: int)
    ensures -1 <= r < |s|
    ensures r < 0 <==> x !in s
    ensures 0 <= r ==> s[r] == x
    ensures forall j :: 0 <= j < r ==> s[j] != x
  {
    if s == [] then -1
    else if s[0] == x then 0
    else
      var k := IndexOf(s[1..], x);
      if k < 0 then -1 else k + 1
  }

  /** `s` after `splice(i, 1)`: element i is gone and the rest keep their order. */
  function Without<T>(s: seq<T>, i: nat): (r: seq<T>)
    requires i < |s|
    ensures |r| == |s| - 1
    ensures forall j :: 0 <= j < i ==> r[j] == s[j]
    ensures forall j :: i <= j < |r| ==> r[j] == s[j + 1]
  {
    s[..i] + s[i + 1..]
  }

  /** Splicing out one element of a duplicate-free sequence removes exactly that value. */
  lemma WithoutDistinct<T>(s: seq<T>, i: nat)
    requires Distinct(s) && i < |s|
    ensures Distinct(Without(s, i))
    ensures forall x :: x in Without(s, i) <==> x in s && x != s[i]
  {
  }

  /** Appending a value absent from a duplicate-free sequence keeps it duplicate-free. */
  lemma AppendDistinct<T>(s: seq<T>, x: T)
    requires Distinct(s) && x !in s
    ensures Distinct(s + [x])
  {
  }

  lemma IdsAppend(ps: seq<Peer>, p: Peer)
    ensures Ids(ps + [p]) == Ids(ps) + [p.id]
  {
  }

  lemma IdsWithout(ps: seq<Peer>, i: nat)
    requires i < |ps|
    ensures Ids(Without(ps, i)) == Without(Ids(ps), i)
  {
  }

  lemma PairsAppend(ls: seq<Link>, l: Link)
    ensures Pairs(ls + [l]) == Pairs(ls) + [(l.source, l.target)]
  {
  }

  lemma PairsWithout(ls: seq<Link>, i: nat)
    requires i < |ls|
    ensures Pairs(Without(ls, i)) == Without(Pairs(ls), i)
  {
  }

  /** Changing a link's rate leaves the endpoints of every link as they were. */
  lemma PairsRerated(ls: seq<Link>, i: nat, rate: Option<real>)
    requires i < |ls|
    ensures Pairs(ls[i := ls[i].(rate := rate)]) == Pairs(ls)
  {
  }
}
