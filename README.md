# p2p-graph: the widget's graph model in Dafny

The `P2PGraph` widget (`index.js`) draws a peer-to-peer network as a force-directed graph.
Underneath the drawing it keeps a small in-memory model: an ordered list of peer nodes with
unique ids, an ordered list of directed links between peers, and at most one focused node.
Its public operations (`add`, `remove`, `connect`, `disconnect`, `seed`, `rate`, `hasPeer`,
`hasLink`, `areConnected`) and the node click handler check their preconditions by linear
search. They throw before touching anything, or else push, splice or assign. Three pure
formulas sit beside them: the byte-rate to link-rate conversion, the stroke-width rule and the
density scale factor.

This project models that state machine and proves what each operation does to it.

- `wrappers.dfy` (`Wrappers`): `Option`, `Result` and `Outcome`. A thrown error is a `Fail`/`Failure`
  carrying an `Error`, and JavaScript's `null` is `None`.
- `style.dfy` (`Style`): the constants `0.7`, `5.0` and `2097152`, plus `SpeedRange`,
  `StrokeWidth` and `Scale` with their bounds, monotonicity and saturation.
- `model.dfy` (`Model`):
  - `Peer` is a class. Links refer to peers by object identity, and `seed` changes a peer in place.
  - `Link` is a datatype of two peers and an optional rate.
  - `Selection` is one emitted `select` event.
  - `Connected` is the focus adjacency predicate.
  - `IndexOf` and `Without` are the sequence facts behind linear search and `splice(i, 1)`.
- `graph.dfy` (`Widget`): the class `P2PGraph` with fields `nodes`, `links`, `focused` and
  `events` (the log of emitted `select` events).
  - `Valid()` says three things: node ids are pairwise distinct, no two links join the same
    ordered pair of peers, and the focused node is a node.
  - Every mutating method keeps `Valid()` and states its whole new state in terms of the old one.
  - Every failing call leaves `nodes`, `links`, `focused` and `events` unchanged.
  - The lookups (`GetNodeIndex`, `GetNode`, `GetLinkIndex`, `GetLink`) are the source's counting
    loops. Each is proved equal to the first-match answer `IndexOf`.
- `example.dfy` (`Example`): the calls of `example/example.js`, in order and without its timers.
  `ExampleDriver` runs one step method per group of calls:
  - `AddPeers`: the three `add` calls.
  - `ConnectYouThing1`: `connect('You', 'Thing1')`.
  - `RateRising`: the rates 150 KB/s, 500 KB/s and 2.5 MB/s.
  - `RateFalling`: the rates 5 MB/s, 2.5 MB/s and 1 MB/s.
  - `DisconnectYouThing1`: `disconnect('You', 'Thing1')`.
  - `RemoveThing1`: `remove('Thing1')`.
  - `SeedThing2`: `seed('Thing2', true)`, then `seed('Thing2', false)`.

  The `choke` and `unchoke` calls are skipped, because their bodies are empty.
  `AddDuplicate`, `RefusedLinkCalls` and `RefusedNodeCalls` try calls the example does not make,
  each of which fails. `RemoveFocused` and `StaleLink` show two more things: removing the focused
  node emits one deselection, and a link to a removed peer does not match a new peer with the
  same id.

How the source is read:

- **Link endpoints are node objects.** `connect` pushes node positions (`index.js:154-157`).
  The layout's `start()` at the end of `_update` (`index.js:390-393`) then replaces both
  positions with the node objects at those positions. `getLink` and `getLinkIndex` compare
  endpoints with `nodes[i]` by identity (`index.js:249-250`, `474-475`).
  - So a link's endpoints here are `Peer` references.
  - `GetLinkIndex`/`GetLink` take positions. A position out of range reads as `null`
    (JavaScript's `undefined`), which no endpoint equals.
- **`node.index` is the node's position.** The layout renumbers every node on each `start()`.
  So where the source reads `sourceNode.index` after `_getNode`, the model uses the position
  `GetNodeIndex` returns.
- **`remove` splices only the node.** A link to the removed peer stays in `links`. It matches
  again only if that same object is re-added. A different object with the same id does not
  match it.
- **`areConnected` returns a link or `null`.** The model returns its truthiness. `hasLink`
  already returns a boolean.
- **Dynamically typed arguments.** `seed`'s flag and `rate`'s byte rate are a `Value`:
  `Number(real)`, `Boolean(bool)` or `OtherValue`. This makes the `typeof` checks expressible.
- **`children` and `parents`** are optional lists the caller supplies with a peer. The
  constructor's loop that would fill them runs over the still-empty link list
  (`index.js:54-63`), so it never does anything.

Two further facts about the code:

- **A 150 KB/s rate is drawn at the 0.7 minimum.** `SpeedRange(150000)` is about 0.358, which
  is below 0.7 (`Style.ExampleRateShowsMinimum`). Every rate up to 293601.28 bytes/s shows at
  the minimum (`Style.DisplayedWidth`).
- **`rate` checks the rate's type and sign before any id lookup** (`index.js:228`).

`index.d.ts:19` declares `disconnect(id)`, but the code takes two ids (`index.js:161`).

## Model

| member | source | states |
|---|---|---|
| `Style.SpeedRange` | index.js:239-242 | for bytes >= 0 the stored rate lies in [0, 5]; it is exactly 5 from 2097152 bytes/s on, and proportional (rate * 2097152 == bytes * 5) below |
| `Style.SpeedRangeMonotone` | index.js:239-242 | the stored rate never decreases as the byte rate grows |
| `Style.SpeedRangeSaturates` | index.js:239-242 | every byte rate at or above 2097152 is stored as the same value, 5 |
| `Style.StrokeWidth` | index.js:286-291 | the width is max(rate, 0.7): never below 0.7, never below the rate, and equal to either 0.7 or the rate; an absent or zero rate shows at 0.7 |
| `Style.DisplayedWidth` | index.js:286-291 | after `rate` with bytes >= 0 the width lies in [0.7, 5], equals 0.7 exactly when bytes * 5 <= 0.7 * 2097152, and equals 5 from 2097152 bytes/s on |
| `Style.ExampleRateShowsMinimum` | example/example.js:34 | the example's 150 KB/s rate is shown at the 0.7 minimum width |
| `Style.Scale` | index.js:437-443 | the density factor lies in [0.2, 1]: it is 1 below 10 nodes, 1 - (n - 10)/100 from 10 to 89 nodes and 0.2 from 90 nodes on |
| `Style.ScaleAntitone` | index.js:437-443 | the density factor never increases as nodes are added |
| `Model.Connected` | index.js:420-426 | true iff same id, or one lists the other's id among its children or parents; with no lists supplied (the widget never fills them), true exactly for the same id |
| `Model.ConnectedReflexive` | index.js:420-426 | every node counts as connected to itself |
| `Model.ConnectedSymmetric` | index.js:420-426 | Connected(d, o) iff Connected(o, d) |
| `Model.IndexOf` | index.js:461-468 | the answer of a linear search: -1 iff the value is absent, otherwise the position of its first occurrence |
| `Model.Without` | index.js:137 | `splice(i, 1)` drops element i and keeps the others in order |
| `Model.WithoutDistinct` | index.js:173 | splicing one element out of a duplicate-free list leaves it duplicate-free and removes exactly that value |
| `Widget.P2PGraph.constructor` | index.js:48-52 | the model starts with no nodes, no links, no focus and no events |
| `Widget.P2PGraph.List` | index.js:112-116 | returns the current node sequence: it holds exactly the ids present, and (under the model invariant) each of them once |
| `Widget.P2PGraph.GetNodeIndex` | index.js:461-468 | returns the position of the first node with the id, or -1 exactly when no node has it |
| `Widget.P2PGraph.GetNode` | index.js:428-435 | returns the node with the id, or null exactly when no node has it |
| `Widget.P2PGraph.GetLinkIndex` | index.js:470-480 | returns the position of the first link whose endpoints are the nodes at the two positions, or -1; always -1 when a position is out of range |
| `Widget.P2PGraph.GetLink` | index.js:245-255 | returns that first matching link, or none exactly when no link matches |
| `Widget.P2PGraph.HasPeer` | index.js:177-184 | true iff every given id names a node (so true for no ids) |
| `Widget.P2PGraph.HasLink` | index.js:186-193 | fails on an unknown source id, then on an unknown target id; otherwise true iff a link runs from the source node to the target node |
| `Widget.P2PGraph.AreConnected` | index.js:195-203 | same failures as `HasLink`; otherwise true iff a link joins the two nodes in either direction |
| `Widget.P2PGraph.Add` | index.js:118-124 | fails exactly on an existing id and then changes nothing; otherwise appends the node at the end, which is then the node for its id; every earlier id keeps its node; ids stay distinct; links, focus and events are unchanged |
| `Widget.P2PGraph.Remove` | index.js:126-139 | fails exactly on an absent id and then changes nothing; otherwise splices out that node, keeps the rest in order, and afterwards exactly the other ids are present; links are untouched; if that node was focused the focus is cleared and exactly one deselection is emitted, otherwise focus and events are unchanged |
| `Widget.P2PGraph.Connect` | index.js:141-159 | fails on an unknown source id, then target id, then an existing link in that direction; succeeds exactly otherwise, appending one unrated link from the source node to the target node, after which the link exists; nodes, focus and events never change |
| `Widget.P2PGraph.Disconnect` | index.js:161-175 | fails on an unknown source id, then target id, then a missing link; succeeds exactly otherwise, splicing out the first matching link with all others kept in order, after which no link runs that way |
| `Widget.P2PGraph.Seed` | index.js:215-223 | fails on a non-boolean flag before the id lookup, then on an unknown id; on success sets that node's seeder flag and no other peer's; nodes, links, focus and events never change |
| `Widget.P2PGraph.Rate` | index.js:225-243 | fails on a non-number or negative rate before any lookup, then on an unknown source or target id, then on a missing link; succeeds exactly otherwise, replacing only the first matching link's rate by `SpeedRange(bytes)` |
| `Widget.P2PGraph.Click` | index.js:326-343 | clicking the focused node clears the focus and emits a deselection; clicking any other node focuses it and emits its id; nodes and links are unchanged |
| `Widget.P2PGraph.Scale` | index.js:437-443 | the factor for the current node count lies in [0.2, 1] and is 1 below 10 nodes |
| `Example.AddPeers` | example/example.js:9-23 | the example's three adds succeed in order and leave exactly the three peers, in that order, with no links and no focus |
| `Example.ConnectYouThing1` | example/example.js:28 | connecting You -> Thing1 leaves the single unrated link You -> Thing1 |
| `Example.RateRising` | example/example.js:34-46 | after the 150 KB/s, 500 KB/s and 2.5 MB/s rates the link's stored rate is 5 |
| `Example.RateFalling` | example/example.js:52-64 | after the 5 MB/s, 2.5 MB/s and 1 MB/s rates the link's stored rate is SpeedRange(1000000) |
| `Example.DisconnectYouThing1` | example/example.js:84 | disconnecting You -> Thing1 leaves no links |
| `Example.RemoveThing1` | example/example.js:90 | removing Thing1 leaves [You, Thing2]; hasPeer('Thing1') is false and hasPeer('You', 'Thing2') true |
| `Example.SeedThing2` | example/example.js:96-102 | seeding Thing2 true and then false leaves Thing2 not seeding and You unchanged |
| `Example.RemoveFocused` | index.js:132-137 | removing the focused peer "b" clears the focus, leaves the events as [Selected("b"), Deselected], and leaves the link a -> b in the list |

## Left out

- Rendering and layout in `_update`, the tick handler and the click handler's force and opacity
  settings (`index.js:69-99`, `268-394`, `328-335`, `345-360`). These drive the d3
  drawing and physics library, which is not part of this model. Only the stroke-width rule is modelled.
- Hover highlighting through `_childNodes`, `_parentNodes` and the mouseover and mouseout handlers
  (`index.js:299-325`, `396-418`) only restyles page elements. The transient `active` flag
  set on click is left out for the same reason.
- `_resize`, the throttled window-resize listener and `destroy` (`index.js:106-109`, `257-266`,
  `445-459`) are browser I/O and timing.
- Debug logging is left out. Event-emitter plumbing is replaced by the `events` log. A `select`
  listener that calls back into the widget while `remove` is running is not modelled.
- `choke` and `unchoke` (`index.js:205-213`) have empty bodies and are not modelled.
- `list()` returns the live node array. `List()` returns its current value, so a caller who
  mutates the returned array is not modelled.
- Ids are strings compared with `==`. The source would compare any JavaScript value with `===`.
- `seeder` is a `bool`. An absent `seeder` reads as `false`, which is the only way the source
  (the node colour) uses it.
- Style.SpeedRange: computed over exact reals. IEEE-754 rounding, `NaN` and `Infinity` are not
  modelled. (`NaN` passes the source's `rate` check, and a `NaN` rate displays at 0.7.)
- Widget.P2PGraph.Click: requires the clicked node to be in `nodes`. Clicks come only from drawn
  nodes, and the drawing drops a removed node's element on the same update.
- Widget.P2PGraph.GetLink: the returned link is a copy. The source returns the live link object
  (`index.js:251`, and through `areConnected` at `index.js:201-202`), and `rate` later writes its
  `rate` field in place (`index.js:235`). A caller holding the returned link would see that update
  and could mutate the link. Neither is modelled: `Link` is a value, and `Rate` replaces the
  element of `links`.
- `index.d.ts` holds type declarations only and is not part of this model.
