/**
 * The widget's in-memory graph model and its public operations. Each
 * operation checks its preconditions by linear search and either fails
 * (the source throws) without touching the model, or updates it in place.
 */
module Widget {
  import opened Wrappers
  import opened Model
  import Style

  /** The conditions under which an operation throws. */
  datatype Error =
    | DuplicateNode         // add: cannot add duplicate node
    | NoSuchNode            // remove / seed: node does not exist
    | InvalidSourceId       // connect, disconnect, rate, hasLink, areConnected
    | InvalidTargetId
    | DuplicateConnection   // connect: cannot make duplicate connection
    | NoSuchConnection      // disconnect / rate: connection does not exist
    | NotBoolean            // seed: 2nd param must be a boolean
    | NotNonNegativeNumber  // rate: 3rd param must be a positive number

  /** A dynamically typed argument, as far as the type checks distinguish it. */
  datatype Value = Number(n: real) | Boolean(b: bool) | OtherValue

  class P2PGraph {
    var nodes: seq<Peer>
    var links: seq<Link>
    var focused: Peer?
    /** The `select` events emitted so far, oldest first. */
    var events: seq<Selection>

    /**
     * Node ids are pairwise distinct, no two links join the same ordered
     * pair of peers, and the focused node is one of the nodes.
     */
    ghost predicate Valid()
      reads this
    {
      && Distinct(Ids(nodes))
      && Distinct(Pairs(links))
      && (focused != null ==> focused in nodes)
    }

    constructor ()
      ensures Valid()
      ensures nodes == [] && links == [] && focused == null && events == []
    {
      nodes, links, focused, events := [], [], null, [];
    }

    /** The current node sequence, in insertion order. */
    function List(): (r: seq<Peer>)
      reads this`nodes
      ensures forall id :: id in Ids(r) <==> Contains(id)
      ensures Valid() ==> Distinct(Ids(r))
    {
      nodes
    }

    predicate Contains(id: string)
      reads this`nodes
    {
      id in Ids(nodes)
    }

    /** The node with the given id. */
    function PeerOf(id: string): (p: Peer)
      reads this`nodes
      requires Contains(id)
      ensures p in nodes && p.id == id
    {
      nodes[IndexOf(Ids(nodes), id)]
    }

    /** There is a link from s to t (whether or not s and t are still nodes). */
    predicate Linked(s: Peer, t: Peer)
      reads this`links
    {
      (s, t) in Pairs(links)
    }

    /** `nodes[k]` as JavaScript reads it: undefined (null here) out of range. */
    function At(k: int): (p: Peer?)
      reads this`nodes
      ensures p != null <==> 0 <= k < |nodes|
    {
      if 0 <= k < |nodes| then nodes[k] else null
    }

    /** Index of the first node with the given id, or -1. */
    method GetNodeIndex(id: string) returns (r: int)
      ensures r == IndexOf(Ids(nodes), id)
      ensures r < 0 <==> !Contains(id)
      ensures 0 <= r ==> nodes[r] == PeerOf(id)
    {
      var i := 0;
      while i < |nodes|
        invariant 0 <= i <= |nodes|
        invariant forall j :: 0 <= j < i ==> nodes[j].id != id
      {
        if nodes[i].id == id {
          return i;
        }
        i := i + 1;
      }
      return -1;
    }

    /** The first node with the given id, or null. */
    method GetNode(id: string) returns (p: Peer?)
      ensures p == null <==> !Contains(id)
      ensures p != null ==> p == PeerOf(id)
    {
      var i := 0;
      while i < |nodes|
        invariant 0 <= i <= |nodes|
        invariant forall j :: 0 <= j < i ==> nodes[j].id != id
      {
        if nodes[i].id == id {
          return nodes[i];
        }
        i := i + 1;
      }
      return null;
    }

    /**
     * Index of the first link from node position `source` to node position
     * `target` (compared by identity with the nodes there), or -1.
     */
    method GetLinkIndex(source: int, target: int) returns (r: int)
      ensures r == IndexOf(Pairs(links), (At(source), At(target)))
      ensures (At(source) == null || At(target) == null) ==> r == -1
    {
      var i := 0;
      while i < |links|
        invariant 0 <= i <= |links|
        invariant forall j :: 0 <= j < i ==> Pairs(links)[j] != (At(source), At(target))
      {
        if links[i].source == At(source) && links[i].target == At(target) {
          return i;
        }
        i := i + 1;
      }
      return -1;
    }

    /** The first link from node position `source` to node position `target`, or none. */
    method GetLink(source: int, target: int) returns (r: Option<Link>)
      ensures r.None? <==> (At(source), At(target)) !in Pairs(links)
      ensures r.Some? ==> r.value == links[IndexOf(Pairs(links), (At(source), At(target)))]
    {
      var i := 0;
      while i < |links|
        invariant 0 <= i <= |links|
        invariant forall j :: 0 <= j < i ==> Pairs(links)[j] != (At(source), At(target))
      {
        var link := links[i];
        if link.source == At(source) && link.target == At(target) {
          return Some(link);
        }
        i := i + 1;
      }
      return None;
    }

    /** Whether every one of the given ids names a node (true for no ids). */
    function HasPeer(ids: seq<string>): (r: bool)
      reads this`nodes
      ensures r <==> forall k :: 0 <= k < |ids| ==> Contains(ids[k])
    {
      |ids| == 0 || (Contains(ids[0]) && HasPeer(ids[1..]))
    }

    /** Whether the directed link a -> b exists; throws on an unknown id. */
    method HasLink(a: string, b: string) returns (r: Result<bool, Error>)
      ensures !Contains(a) ==> r == Failure(InvalidSourceId)
      ensures Contains(a) && !Contains(b) ==> r == Failure(InvalidTargetId)
      ensures Contains(a) && Contains(b) ==> r == Success(Linked(PeerOf(a), PeerOf(b)))
    {
      var s := GetNodeIndex(a);
      if s < 0 {
        return Failure(InvalidSourceId);
      }
      var t := GetNodeIndex(b);
      if t < 0 {
        return Failure(InvalidTargetId);
      }
      var link := GetLink(s, t);
      return Success(link.Some?);
    }

    /** Whether a link joins a and b in either direction; throws on an unknown id. */
    method AreConnected(a: string, b: string) returns (r: Result<bool, Error>)
      ensures !Contains(a) ==> r == Failure(InvalidSourceId)
      ensures Contains(a) && !Contains(b) ==> r == Failure(InvalidTargetId)
      ensures Contains(a) && Contains(b) ==>
        r == Success(Linked(PeerOf(a), PeerOf(b)) || Linked(PeerOf(b), PeerOf(a)))
    {
      var s := GetNodeIndex(a);
      if s < 0 {
        return Failure(InvalidSourceId);
      }
      var t := GetNodeIndex(b);
      if t < 0 {
        return Failure(InvalidTargetId);
      }
      var forward := GetLink(s, t);
      if forward.Some? {
        return Success(true);
      }
      var backward := GetLink(t, s);
      return Success(backward.Some?);
    }

    /** Appends a peer whose id is new; fails on a duplicate id. */
    method Add(node: Peer) returns (outcome: Outcome<Error>)
      requires Valid()
      modifies this
      ensures Valid()
      ensures outcome == if old(Contains(node.id)) then Fail(DuplicateNode) else Pass
      ensures outcome.Fail? ==> nodes == old(nodes)
      ensures outcome.Pass? ==> nodes == old(nodes) + [node] && Contains(node.id) && PeerOf(node.id) == node
      ensures forall id :: old(Contains(id)) ==> Contains(id) && PeerOf(id) == old(PeerOf(id))
      ensures links == old(links) && focused == old(focused) && events == old(events)
    {
      var existing := GetNode(node.id);
      if existing != null {
        return Fail(DuplicateNode);
      }
      IdsAppend(nodes, node);
      AppendDistinct(Ids(nodes), node.id);
      nodes := nodes + [node];
      return Pass;
    }

    /**
     * Removes the node with the given id, keeping the others in order and
     * leaving every link alone; removing the focused node clears the focus
     * and emits one deselection.
     */
    method Remove(id: string) returns (outcome: Outcome<Error>)
      requires Valid()
      modifies this
      ensures Valid()
      ensures outcome == if old(Contains(id)) then Pass else Fail(NoSuchNode)
      ensures outcome.Fail? ==> nodes == old(nodes) && focused == old(focused) && events == old(events)
      ensures outcome.Pass? ==> nodes == Without(old(nodes), old(IndexOf(Ids(nodes), id)))
      ensures outcome.Pass? ==> forall x :: Contains(x) <==> old(Contains(x)) && x != id
      ensures outcome.Pass? && old(focused) != null && old(focused).id == id ==>
        focused == null && events == old(events) + [Deselected]
      ensures outcome.Pass? && !(old(focused) != null && old(focused).id == id) ==>
        focused == old(focused) && events == old(events)
      ensures links == old(links)
    {
      var index := GetNodeIndex(id);
      if index < 0 {
        return Fail(NoSuchNode);
      }
      if focused != null && focused.id == id {
        focused := null;
        events := events + [Deselected];
      }
      IdsWithout(nodes, index);
      WithoutDistinct(Ids(nodes), index);
      nodes := Without(nodes, index);
      return Pass;
    }

    /** Appends a link a -> b between existing nodes unless one already exists. */
    method Connect(a: string, b: string) returns (outcome: Outcome<Error>)
      requires Valid()
      modifies this
      ensures Valid()
      ensures nodes == old(nodes) && focused == old(focused) && events == old(events)
      ensures old(!Contains(a)) ==> outcome == Fail(InvalidSourceId)
      ensures old(Contains(a) && !Contains(b)) ==> outcome == Fail(InvalidTargetId)
      ensures old(Contains(a) && Contains(b) && Linked(PeerOf(a), PeerOf(b))) ==>
        outcome == Fail(DuplicateConnection)
      ensures outcome.Fail? ==> links == old(links)
      ensures outcome.Pass? <==> old(Contains(a) && Contains(b) && !Linked(PeerOf(a), PeerOf(b)))
      ensures outcome.Pass? ==>
        && links == old(links) + [Link(PeerOf(a), PeerOf(b), None)]
        && Linked(PeerOf(a), PeerOf(b))
    {
      var s := GetNodeIndex(a);
      if s < 0 {
        return Fail(InvalidSourceId);
      }
      var t := GetNodeIndex(b);
      if t < 0 {
        return Fail(InvalidTargetId);
      }
      var existing := GetLink(s, t);
      if existing.Some? {
        return Fail(DuplicateConnection);
      }
      var link := Link(nodes[s], nodes[t], None);
      PairsAppend(links, link);
      AppendDistinct(Pairs(links), (link.source, link.target));
      links := links + [link];
      return Pass;
    }

    /** Removes the first link a -> b, keeping every other link in order. */
    method Disconnect(a: string, b: string) returns (outcome: Outcome<Error>)
      requires Valid()
      modifies this
      ensures Valid()
      ensures nodes == old(nodes) && focused == old(focused) && events == old(events)
      ensures old(!Contains(a)) ==> outcome == Fail(InvalidSourceId)
      ensures old(Contains(a) && !Contains(b)) ==> outcome == Fail(InvalidTargetId)
      ensures old(Contains(a) && Contains(b) && !Linked(PeerOf(a), PeerOf(b))) ==>
        outcome == Fail(NoSuchConnection)
      ensures outcome.Fail? ==> links == old(links)
      ensures outcome.Pass? <==> old(Contains(a) && Contains(b) && Linked(PeerOf(a), PeerOf(b)))
      ensures outcome.Pass? ==>
        && links == Without(old(links), old(IndexOf(Pairs(links), (PeerOf(a), PeerOf(b)))))
        && !Linked(PeerOf(a), PeerOf(b))
    {
      var s := GetNodeIndex(a);
      if s < 0 {
        return Fail(InvalidSourceId);
      }
      var t := GetNodeIndex(b);
      if t < 0 {
        return Fail(InvalidTargetId);
      }
      var index := GetLinkIndex(s, t);
      if index < 0 {
        return Fail(NoSuchConnection);
      }
      PairsWithout(links, index);
      WithoutDistinct(Pairs(links), index);
      links := Without(links, index);
      return Pass;
    }

    /**
     * Sets a node's seeder flag; fails on a non-boolean flag before looking
     * the id up, then on an unknown id. No other peer changes.
     */
    method Seed(id: string, isSeeding: Value) returns (outcome: Outcome<Error>)
      requires Valid()
      modifies nodes
      ensures Valid()
      ensures outcome ==
        if !isSeeding.Boolean? then Fail(NotBoolean)
        else if !Contains(id) then Fail(NoSuchNode)
        else Pass
      ensures outcome.Pass? ==> PeerOf(id).seeder == isSeeding.b
      ensures forall p :: p in nodes && (outcome.Fail? || p.id != id) ==> p.seeder == old(p.seeder)
      ensures nodes == old(nodes) && links == old(links)
      ensures focused == old(focused) && events == old(events)
    {
      if !isSeeding.Boolean? {
        return Fail(NotBoolean);
      }
      var index := GetNodeIndex(id);
      if index < 0 {
        return Fail(NoSuchNode);
      }
      nodes[index].seeder := isSeeding.b;
      return Pass;
    }

    /**
     * Stores the scaled rate of an observed byte rate on the link a -> b;
     * fails on a non-number or negative rate before any id lookup.
     */
    method Rate(a: string, b: string, bytesRate: Value) returns (outcome: Outcome<Error>)
      requires Valid()
      modifies this
      ensures Valid()
      ensures nodes == old(nodes) && focused == old(focused) && events == old(events)
      ensures !(bytesRate.Number? && 0.0 <= bytesRate.n) ==> outcome == Fail(NotNonNegativeNumber)
      ensures bytesRate.Number? && 0.0 <= bytesRate.n ==>
        && (old(!Contains(a)) ==> outcome == Fail(InvalidSourceId))
        && (old(Contains(a) && !Contains(b)) ==> outcome == Fail(InvalidTargetId))
        && (old(Contains(a) && Contains(b) && !Linked(PeerOf(a), PeerOf(b))) ==>
              outcome == Fail(NoSuchConnection))
      ensures outcome.Fail? ==> links == old(links)
      ensures outcome.Pass? <==>
        && bytesRate.Number? && 0.0 <= bytesRate.n
        && old(Contains(a) && Contains(b) && Linked(PeerOf(a), PeerOf(b)))
      ensures outcome.Pass? ==>
        && var k := old(IndexOf(Pairs(links), (PeerOf(a), PeerOf(b))));
           links == old(links)[k := old(links)[k].(rate := Some(Style.SpeedRange(bytesRate.n)))]
      ensures Pairs(links) == old(Pairs(links))
    {
      if !bytesRate.Number? || bytesRate.n < 0.0 {
        return Fail(NotNonNegativeNumber);
      }
      var s := GetNodeIndex(a);
      if s < 0 {
        return Fail(InvalidSourceId);
      }
      var t := GetNodeIndex(b);
      if t < 0 {
        return Fail(InvalidTargetId);
      }
      var index := GetLinkIndex(s, t);
      if index < 0 {
        return Fail(NoSuchConnection);
      }
      PairsRerated(links, index, Some(Style.SpeedRange(bytesRate.n)));
      links := links[index := links[index].(rate := Some(Style.SpeedRange(bytesRate.n)))];
      return Pass;
    }

    /**
     * The click handler's focus toggle: clicking the focused node clears the
     * focus and emits a deselection; clicking any other node focuses it and
     * emits its id.
     */
    method Click(d: Peer)
      requires Valid() && d in nodes
      modifies this
      ensures Valid()
      ensures old(focused) == d ==> focused == null && events == old(events) + [Deselected]
      ensures old(focused) != d ==> focused == d && events == old(events) + [Selected(d.id)]
      ensures nodes == old(nodes) && links == old(links)
    {
      if focused == d {
        focused := null;
        events := events + [Deselected];
        return;
      }
      focused := d;
      events := events + [Selected(d.id)];
    }

    /** The density factor for the current number of nodes. */
    function Scale(): (r: real)
      reads this`nodes
      ensures 0.2 <= r <= 1.0
      ensures |nodes| < 10 ==> r == 1.0
    {
      Style.Scale(|nodes|)
    }
  }
}
