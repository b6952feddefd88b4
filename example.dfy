/**
 * The call sequence of the repository's example driver (example/example.js),
 * replayed in order against the model without its timers, one step method per
 * group of calls; then the error paths and the behaviour of links whose
 * endpoint was removed. Every assertion follows from the operations'
 * contracts alone.
 */
module Example {
  import opened Wrappers
  import opened Model
  import opened Widget
  import Style

  /** The example's first two `add` calls. */
  method AddTwoPeers() returns (graph: P2PGraph, you: Peer, thing1: Peer)
    ensures fresh(graph) && fresh(you) && fresh(thing1) && graph.Valid()
    ensures you.id == "You" && thing1.id == "Thing1" && !you.seeder && !thing1.seeder
    ensures graph.List() == [you, thing1] && graph.links == [] && graph.focused == null
    ensures graph.Contains("You") && graph.Contains("Thing1")
    ensures graph.PeerOf("You") == you && graph.PeerOf("Thing1") == thing1
  {
    graph := new P2PGraph();
    you := new Peer("You", true, "You", false, None, None);
    thing1 := new Peer("Thing1", false, "192.168.1.20", false, None, None);
    var o := graph.Add(you);
    assert graph.nodes == [you];
    o := graph.Add(thing1);
    assert o == Pass;
  }

  /** The example's three `add` calls. */
  method AddPeers() returns (graph: P2PGraph, you: Peer, thing1: Peer, thing2: Peer)
    ensures fresh(graph) && fresh(you) && fresh(thing1) && fresh(thing2) && graph.Valid()
    ensures you.id == "You" && thing1.id == "Thing1" && thing2.id == "Thing2"
    ensures graph.List() == [you, thing1, thing2] && graph.links == [] && graph.focused == null
    ensures graph.Contains("You") && graph.Contains("Thing1") && graph.Contains("Thing2")
    ensures graph.PeerOf("You") == you && graph.PeerOf("Thing1") == thing1 && graph.PeerOf("Thing2") == thing2
    ensures !you.seeder && !thing1.seeder && !thing2.seeder
  {
    graph, you, thing1 := AddTwoPeers();
    thing2 := new Peer("Thing2", false, "192.168.1.44", false, None, None);
    var o := graph.Add(thing2);
    assert o == Pass;
  }

  /** A fourth node with a taken id is refused and the list keeps three nodes. */
  method AddDuplicate()
  {
    var graph, you, thing1, thing2 := AddPeers();
    var twin := new Peer("Thing2", false, "elsewhere", false, None, None);
    var o := graph.Add(twin);
    assert o == Fail(DuplicateNode) && |graph.List()| == 3;
  }

  /** The three example peers are the nodes, in order, and nothing is focused. */
  ghost predicate Started(graph: P2PGraph, you: Peer, thing1: Peer, thing2: Peer)
    reads graph
  {
    && graph.Valid() && graph.focused == null
    && you.id == "You" && thing1.id == "Thing1" && thing2.id == "Thing2"
    && graph.nodes == [you, thing1, thing2]
    && graph.Contains("You") && graph.Contains("Thing1") && graph.Contains("Thing2")
    && graph.PeerOf("You") == you && graph.PeerOf("Thing1") == thing1 && graph.PeerOf("Thing2") == thing2
  }

  /** connect('You', 'Thing1'). */
  method ConnectYouThing1(graph: P2PGraph, you: Peer, thing1: Peer, thing2: Peer)
    requires Started(graph, you, thing1, thing2) && graph.links == []
    modifies graph
    ensures Started(graph, you, thing1, thing2) && graph.links == [Link(you, thing1, None)]
  {
    var o := graph.Connect("You", "Thing1");
    assert o == Pass;
    var linked := graph.HasLink("You", "Thing1");
    assert linked == Success(true);
    var either := graph.AreConnected("Thing1", "You");
    assert either == Success(true);
  }

  /** rate('You', 'Thing1', …) at 150 KB/s, 500 KB/s and 2.5 MB/s. */
  method RateRising(graph: P2PGraph, you: Peer, thing1: Peer, thing2: Peer)
    requires Started(graph, you, thing1, thing2) && graph.links == [Link(you, thing1, None)]
    modifies graph
    ensures Started(graph, you, thing1, thing2)
    ensures graph.links == [Link(you, thing1, Some(Style.MaxWidth))]
  {
    assert Pairs(graph.links)[0] == (you, thing1);
    var o := graph.Rate("You", "Thing1", Number(150000.0));
    assert o == Pass && graph.links == [Link(you, thing1, Some(Style.SpeedRange(150000.0)))];
    Style.ExampleRateShowsMinimum();
    assert Style.StrokeWidth(graph.links[0].rate) == Style.LinkWidth;
    o := graph.Rate("You", "Thing1", Number(500000.0));
    assert o == Pass && graph.links == [Link(you, thing1, Some(Style.SpeedRange(500000.0)))];
    assert Style.LinkWidth < Style.StrokeWidth(graph.links[0].rate) < Style.MaxWidth;
    o := graph.Rate("You", "Thing1", Number(2500000.0));
    assert o == Pass;
  }

  /** rate('You', 'Thing1', …) at 5 MB/s, 2.5 MB/s and 1 MB/s. */
  method RateFalling(graph: P2PGraph, you: Peer, thing1: Peer, thing2: Peer)
    requires Started(graph, you, thing1, thing2) && graph.links == [Link(you, thing1, Some(Style.MaxWidth))]
    modifies graph
    ensures Started(graph, you, thing1, thing2)
    ensures graph.links == [Link(you, thing1, Some(Style.SpeedRange(1000000.0)))]
  {
    assert Pairs(graph.links)[0] == (you, thing1);
    var o := graph.Rate("You", "Thing1", Number(5000000.0));
    assert o == Pass && graph.links == [Link(you, thing1, Some(Style.MaxWidth))];
    o := graph.Rate("You", "Thing1", Number(2500000.0));
    assert o == Pass && graph.links == [Link(you, thing1, Some(Style.MaxWidth))];
    o := graph.Rate("You", "Thing1", Number(1000000.0));
    assert o == Pass;
  }

  /** disconnect('You', 'Thing1'). */
  method DisconnectYouThing1(graph: P2PGraph, you: Peer, thing1: Peer, thing2: Peer, rate: Option<real>)
    requires Started(graph, you, thing1, thing2) && graph.links == [Link(you, thing1, rate)]
    modifies graph
    ensures Started(graph, you, thing1, thing2) && graph.links == []
  {
    assert Pairs(graph.links)[0] == (you, thing1);
    var o := graph.Disconnect("You", "Thing1");
    assert o == Pass;
    var linked := graph.HasLink("You", "Thing1");
    assert linked == Success(false);
  }

  /** remove('Thing1'). */
  method RemoveThing1(graph: P2PGraph, you: Peer, thing1: Peer, thing2: Peer)
    requires Started(graph, you, thing1, thing2) && graph.links == []
    modifies graph
    ensures graph.Valid() && graph.nodes == [you, thing2] && graph.links == []
    ensures !graph.HasPeer(["Thing1"]) && graph.HasPeer(["You", "Thing2"])
  {
    var o := graph.Remove("Thing1");
    assert o == Pass && graph.nodes == [you, thing2];
    assert |graph.List()| == 2;
  }

  /** seed('Thing2', true), then seed('Thing2', false). */
  method SeedThing2(graph: P2PGraph, you: Peer, thing2: Peer)
    requires graph.Valid() && graph.nodes == [you, thing2] && graph.Contains("Thing2")
    requires you.id == "You" && thing2.id == "Thing2"
    modifies graph.nodes
    ensures !thing2.seeder && you.seeder == old(you.seeder)
  {
    var o := graph.Seed("Thing2", Boolean(true));
    assert o == Pass && thing2.seeder;
    o := graph.Seed("Thing2", Boolean(false));
    assert o == Pass;
  }

  /**
   * The whole example sequence in order. The choke and unchoke calls between
   * the last rate and the disconnect are no-ops in the source and are skipped.
   */
  method ExampleDriver()
  {
    var graph, you, thing1, thing2 := AddPeers();
    ConnectYouThing1(graph, you, thing1, thing2);
    RateRising(graph, you, thing1, thing2);
    RateFalling(graph, you, thing1, thing2);
    DisconnectYouThing1(graph, you, thing1, thing2, Some(Style.SpeedRange(1000000.0)));
    RemoveThing1(graph, you, thing1, thing2);
    SeedThing2(graph, you, thing2);
    assert !thing2.seeder && !you.seeder;
  }

  /** Link calls the example does not make, each refused without changing the links. */
  method RefusedLinkCalls()
  {
    var graph, you, thing1, thing2 := AddPeers();
    ConnectYouThing1(graph, you, thing1, thing2);
    var o := graph.Connect("You", "Thing1");
    assert o == Fail(DuplicateConnection);
    o := graph.Rate("You", "Thing1", Number(-1.0));
    assert o == Fail(NotNonNegativeNumber);
    o := graph.Disconnect("Thing1", "You");
    assert o == Fail(NoSuchConnection) && graph.links == [Link(you, thing1, None)];
  }

  /** Node calls the example does not make, each refused without changing the nodes. */
  method RefusedNodeCalls()
  {
    var graph, you, thing1, thing2 := AddPeers();
    var o := graph.Seed("Thing2", OtherValue);
    assert o == Fail(NotBoolean);
    o := graph.Remove("Nobody");
    assert o == Fail(NoSuchNode) && |graph.List()| == 3;
  }

  /** Two peers a and b and the link a -> b. */
  method LinkedPair() returns (graph: P2PGraph, a: Peer, b: Peer)
    ensures fresh(graph) && graph.Valid() && a.id == "a" && b.id == "b"
    ensures graph.nodes == [a, b] && graph.links == [Link(a, b, None)]
    ensures graph.focused == null && graph.events == []
  {
    graph := new P2PGraph();
    a := new Peer("a", true, "a", false, None, None);
    b := new Peer("b", false, "b", false, None, None);
    var o := graph.Add(a);
    assert graph.nodes == [a];
    o := graph.Add(b);
    assert graph.nodes == [a, b] && graph.Contains("a") && graph.Contains("b");
    o := graph.Connect("a", "b");
    assert o == Pass;
  }

  /** Removing the focused node emits one deselection; its link stays in the list. */
  method RemoveFocused() returns (graph: P2PGraph, a: Peer, b: Peer)
    ensures fresh(graph) && graph.Valid() && a.id == "a" && b.id == "b"
    ensures graph.nodes == [a] && graph.links == [Link(a, b, None)]
    ensures graph.focused == null && graph.events == [Selected("b"), Deselected]
  {
    graph, a, b := LinkedPair();
    graph.Click(b);
    assert graph.focused == b && graph.events == [Selected("b")];
    assert graph.Contains("b");
    var o := graph.Remove("b");
    assert o == Pass && graph.focused == null && graph.events == [Selected("b"), Deselected];
  }

  /** A new node with the removed node's id does not inherit the stale link. */
  method StaleLink()
  {
    var graph, a, b := RemoveFocused();
    var other := new Peer("b", false, "b again", false, None, None);
    var o := graph.Add(other);
    assert graph.nodes == [a, other] && graph.PeerOf("b") == other;
    var linked := graph.HasLink("a", "b");
    assert linked == Success(false);
  }
}
