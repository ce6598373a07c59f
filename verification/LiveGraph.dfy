/** The console's live graph: a snapshot patched by events, with a bounded queue of edges that
    arrived before their nodes. Drawing and the force simulation are left out. */
module LiveGraph {
  import opened Collections
  import opened Options

  const ORPHAN_QUEUE_MAX: nat := 200

  datatype Node = Node(id: string, caption: string, kind: string, lastUpdated: string)

  datatype Key = Key(source: string, target: string, kind: string)

  datatype Edge = Edge(key: Key, weight: real, caption: string, confidence: real)

  /** The payload of an edge-added event, as it is also kept in the queue. */
  datatype Offer = Offer(key: Key, weight: Option<real>, caption: Option<string>, confidence: Option<real>)

  datatype Event =
    | NodeAdded(id: string, caption: Option<string>, kind: Option<string>, lastUpdated: Option<string>, ts: string)
    | NodeUpdated(id: string, caption: Option<string>, kind: Option<string>, lastUpdated: Option<string>)
    | EdgeAdded(offer: Offer)
    | EdgeUpdated(key: Key, weight: Option<real>, confidence: Option<real>)
    | EdgeRemoved(key: Key)

  datatype Graph = Graph(nodes: seq<Node>, edges: seq<Edge>, queue: seq<Offer>)

  function OrElse(s: Option<string>, other: string): string {
    if s.Some? && s.value != "" then s.value else other
  }

  function Or<T>(value: Option<T>, other: T): T {
    if value.Some? then value.value else other
  }

  function EdgeOf(o: Offer): Edge {
    Edge(o.key, Or(o.weight, 1.0), OrElse(o.caption, ""), Or(o.confidence, 1.0))
  }

  function Ids(nodes: seq<Node>): set<string> {
    set n | n in nodes :: n.id
  }

  function Keys(edges: seq<Edge>): set<Key> {
    set e | e in edges :: e.key
  }

  function Queued(queue: seq<Offer>): set<Key> {
    set o | o in queue :: o.key
  }

  predicate Resolved(ids: set<string>, key: Key) {
    key.source in ids && key.target in ids
  }

  function ResolvedOf(ids: set<string>, keys: set<Key>): set<Key> {
    set k | k in keys && Resolved(ids, k)
  }

  // ---------------------------------------------------------------------------
  // The events as functions
  // ---------------------------------------------------------------------------

  function WithEdge(edges: seq<Edge>, o: Offer): seq<Edge> {
    if o.key in Keys(edges) then edges else edges + [EdgeOf(o)]
  }

  /** The queue is walked from its end; every entry that has both nodes becomes an edge. */
  function Drained(ids: set<string>, edges: seq<Edge>, queue: seq<Offer>): seq<Edge> {
    if queue == [] then edges
    else
      var later := Drained(ids, edges, queue[1..]);
      if Resolved(ids, queue[0].key) then WithEdge(later, queue[0]) else later
  }

  function StillOrphaned(ids: set<string>, queue: seq<Offer>): seq<Offer> {
    if queue == [] then []
    else (if Resolved(ids, queue[0].key) then [] else [queue[0]]) + StillOrphaned(ids, queue[1..])
  }

  function AfterNodeAdded(g: Graph, node: Node): Graph {
    if node.id in Ids(g.nodes) then g
    else
      var nodes := g.nodes + [node];
      Graph(nodes, Drained(Ids(nodes), g.edges, g.queue), StillOrphaned(Ids(nodes), g.queue))
  }

  function Relabelled(n: Node, caption: Option<string>, kind: Option<string>, lastUpdated: Option<string>): Node {
    Node(n.id, OrElse(caption, n.caption), OrElse(kind, n.kind), OrElse(lastUpdated, n.lastUpdated))
  }

  /** Position of the first node with an id, or the number of nodes. */
  function Find(nodes: seq<Node>, id: string): (i: nat)
    ensures i <= |nodes| && (forall j | 0 <= j < i :: nodes[j].id != id)
    ensures i < |nodes| ==> nodes[i].id == id
  {
    if nodes == [] || nodes[0].id == id then 0 else 1 + Find(nodes[1..], id)
  }

  function AfterNodeUpdated(g: Graph, id: string, caption: Option<string>, kind: Option<string>,
      lastUpdated: Option<string>): Graph {
    var i := Find(g.nodes, id);
    if i < |g.nodes| then g.(nodes := g.nodes[i := Relabelled(g.nodes[i], caption, kind, lastUpdated)]) else g
  }

  function AfterEdgeAdded(g: Graph, o: Offer): Graph {
    if Resolved(Ids(g.nodes), o.key) then g.(edges := WithEdge(g.edges, o))
    else if o.key in Queued(g.queue) then g
    else g.(queue := (if |g.queue| >= ORPHAN_QUEUE_MAX then g.queue[1..] else g.queue) + [o])
  }

  function Reweighed(e: Edge, key: Key, weight: Option<real>, confidence: Option<real>): Edge {
    if e.key == key then e.(weight := Or(weight, e.weight), confidence := Or(confidence, e.confidence)) else e
  }

  function AllReweighed(edges: seq<Edge>, key: Key, weight: Option<real>, confidence: Option<real>): (r: seq<Edge>)
    ensures |r| == |edges| && forall i | 0 <= i < |r| :: r[i] == Reweighed(edges[i], key, weight, confidence)
  {
    seq(|edges|, i requires 0 <= i < |edges| => Reweighed(edges[i], key, weight, confidence))
  }

  function WithoutEdge(edges: seq<Edge>, key: Key): seq<Edge> {
    if edges == [] then []
    else (if edges[0].key == key then [] else [edges[0]]) + WithoutEdge(edges[1..], key)
  }

  function Touched(edges: seq<Edge>): set<string> {
    (set e | e in edges :: e.key.source) + (set e | e in edges :: e.key.target)
  }

  function WithoutNodes(nodes: seq<Node>, lost: set<string>): seq<Node> {
    if nodes == [] then []
    else (if nodes[0].id in lost then [] else [nodes[0]]) + WithoutNodes(nodes[1..], lost)
  }

  /** Nodes that lose their last edge go with it; nodes that never had one stay. */
  function AfterEdgeRemoved(g: Graph, key: Key): Graph {
    var edges := WithoutEdge(g.edges, key);
    Graph(WithoutNodes(g.nodes, Touched(g.edges) - Touched(edges)), edges, g.queue)
  }

  function NodeOf(e: Event): Node
    requires e.NodeAdded?
  {
    Node(e.id, OrElse(e.caption, e.id), OrElse(e.kind, "unknown"), OrElse(e.lastUpdated, e.ts))
  }

  function After(g: Graph, e: Event): Graph {
    match e
    case NodeAdded(_, _, _, _, _) => AfterNodeAdded(g, NodeOf(e))
    case NodeUpdated(id, caption, kind, lastUpdated) => AfterNodeUpdated(g, id, caption, kind, lastUpdated)
    case EdgeAdded(o) => AfterEdgeAdded(g, o)
    case EdgeUpdated(key, weight, confidence) => g.(edges := AllReweighed(g.edges, key, weight, confidence))
    case EdgeRemoved(key) => AfterEdgeRemoved(g, key)
  }

  // ---------------------------------------------------------------------------
  // The invariant
  // ---------------------------------------------------------------------------

  predicate UniqueNodes(nodes: seq<Node>) {
    forall i, j | 0 <= i < j < |nodes| :: nodes[i].id != nodes[j].id
  }

  predicate UniqueEdges(edges: seq<Edge>) {
    forall i, j | 0 <= i < j < |edges| :: edges[i].key != edges[j].key
  }

  predicate UniqueOffers(queue: seq<Offer>) {
    forall i, j | 0 <= i < j < |queue| :: queue[i].key != queue[j].key
  }

  predicate Joined(ids: set<string>, edges: seq<Edge>) {
    forall e | e in edges :: Resolved(ids, e.key)
  }

  predicate Orphans(ids: set<string>, queue: seq<Offer>) {
    forall o | o in queue :: !Resolved(ids, o.key)
  }

  predicate Ok(g: Graph) {
    && UniqueNodes(g.nodes) && UniqueEdges(g.edges) && Joined(Ids(g.nodes), g.edges)
    && UniqueOffers(g.queue) && |g.queue| <= ORPHAN_QUEUE_MAX && Orphans(Ids(g.nodes), g.queue)
  }

  lemma IdsAppend(nodes: seq<Node>, node: Node)
    ensures Ids(nodes + [node]) == Ids(nodes) + {node.id}
  {
    forall id | id in Ids(nodes) + {node.id} ensures id in Ids(nodes + [node]) {
      if id in Ids(nodes) {
        var n :| n in nodes && n.id == id;
        assert n in nodes + [node];
      } else {
        assert node in nodes + [node];
      }
    }
  }

  lemma WithEdgeKeeps(ids: set<string>, edges: seq<Edge>, o: Offer)
    requires UniqueEdges(edges) && Joined(ids, edges) && Resolved(ids, o.key)
    ensures UniqueEdges(WithEdge(edges, o)) && Joined(ids, WithEdge(edges, o))
    ensures Keys(WithEdge(edges, o)) == Keys(edges) + {o.key}
  {
    if o.key !in Keys(edges) {
      var more := edges + [EdgeOf(o)];
      forall i | 0 <= i < |edges| ensures edges[i].key != o.key {
        assert edges[i] in edges;
      }
      forall k | k in Keys(edges) ensures k in Keys(more) {
        var e :| e in edges && e.key == k;
        assert e in more;
      }
      assert EdgeOf(o) in more;
    }
  }

  lemma {:induction false} DrainKeeps(ids: set<string>, edges: seq<Edge>, queue: seq<Offer>)
    requires UniqueEdges(edges) && Joined(ids, edges)
    ensures UniqueEdges(Drained(ids, edges, queue)) && Joined(ids, Drained(ids, edges, queue))
    ensures Keys(Drained(ids, edges, queue)) == Keys(edges) + ResolvedOf(ids, Queued(queue))
  {
    if queue != [] {
      DrainKeeps(ids, edges, queue[1..]);
      if Resolved(ids, queue[0].key) {
        WithEdgeKeeps(ids, Drained(ids, edges, queue[1..]), queue[0]);
      }
      QueuedSplits(queue);
    }
  }

  lemma QueuedSplits(queue: seq<Offer>)
    requires queue != []
    ensures Queued(queue) == {queue[0].key} + Queued(queue[1..])
  {
    assert queue == [queue[0]] + queue[1..];
    forall k | k in Queued(queue[1..]) ensures k in Queued(queue) {
      var o :| o in queue[1..] && o.key == k;
      assert o in queue;
    }
    assert queue[0] in queue;
  }

  lemma {:induction false} OrphansStay(ids: set<string>, queue: seq<Offer>)
    ensures Orphans(ids, StillOrphaned(ids, queue)) && |StillOrphaned(ids, queue)| <= |queue|
    ensures forall o | o in StillOrphaned(ids, queue) :: o in queue
    ensures Queued(StillOrphaned(ids, queue)) == Queued(queue) - ResolvedOf(ids, Queued(queue))
  {
    if queue != [] {
      OrphansStay(ids, queue[1..]);
      QueuedSplits(queue);
      var rest := StillOrphaned(ids, queue[1..]);
      if !Resolved(ids, queue[0].key) {
        assert StillOrphaned(ids, queue) == [queue[0]] + rest;
        QueuedSplits([queue[0]] + rest);
        assert ([queue[0]] + rest)[1..] == rest;
      } else {
        assert StillOrphaned(ids, queue) == rest;
      }
    }
  }

  lemma {:induction false} OrphansStayUnique(ids: set<string>, queue: seq<Offer>)
    requires UniqueOffers(queue)
    ensures UniqueOffers(StillOrphaned(ids, queue))
  {
    if queue != [] {
      OrphansStayUnique(ids, queue[1..]);
      OrphansStay(ids, queue[1..]);
      FirstOnlyOnce(queue);
      assert forall o | o in StillOrphaned(ids, queue[1..]) :: o.key in Queued(queue[1..]);
    }
  }

  lemma NodeAddedKeeps(g: Graph, node: Node)
    requires Ok(g)
    ensures Ok(AfterNodeAdded(g, node))
    ensures var t := AfterNodeAdded(g, node);
      && Ids(t.nodes) == Ids(g.nodes) + {node.id}
      && Keys(t.edges) == Keys(g.edges) + ResolvedOf(Ids(t.nodes), Queued(g.queue))
      && Queued(t.queue) == Queued(g.queue) - ResolvedOf(Ids(t.nodes), Queued(g.queue))
  {
    if node.id !in Ids(g.nodes) {
      var nodes := g.nodes + [node];
      IdsAppend(g.nodes, node);
      forall i | 0 <= i < |g.nodes| ensures g.nodes[i].id != node.id {
        assert g.nodes[i] in g.nodes;
      }
      DrainKeeps(Ids(nodes), g.edges, g.queue);
      OrphansStay(Ids(nodes), g.queue);
      OrphansStayUnique(Ids(nodes), g.queue);
    } else {
      assert Ids(g.nodes) + {node.id} == Ids(g.nodes);
      OrphansByKey(g);
    }
  }

  lemma OrphansByKey(g: Graph)
    requires Orphans(Ids(g.nodes), g.queue)
    ensures forall k | k in Queued(g.queue) :: !Resolved(Ids(g.nodes), k)
  {
  }

  lemma NodeUpdatedKeeps(g: Graph, id: string, caption: Option<string>, kind: Option<string>,
      lastUpdated: Option<string>)
    requires Ok(g)
    ensures Ok(AfterNodeUpdated(g, id, caption, kind, lastUpdated))
    ensures Ids(AfterNodeUpdated(g, id, caption, kind, lastUpdated).nodes) == Ids(g.nodes)
  {
    var t := AfterNodeUpdated(g, id, caption, kind, lastUpdated);
    SameIds(g.nodes, t.nodes);
    assert forall i | 0 <= i < |t.nodes| :: t.nodes[i].id == g.nodes[i].id;
  }

  lemma SameIds(a: seq<Node>, b: seq<Node>)
    requires |a| == |b| && forall i | 0 <= i < |a| :: a[i].id == b[i].id
    ensures Ids(a) == Ids(b)
  {
    forall id ensures id in Ids(a) <==> id in Ids(b) {
      if id in Ids(a) {
        var i :| 0 <= i < |a| && a[i].id == id;
        assert b[i] in b;
      }
      if id in Ids(b) {
        var i :| 0 <= i < |b| && b[i].id == id;
        assert a[i] in a;
      }
    }
  }

  /** A new edge finds its nodes missing and the queue full. */
  predicate Overflows(g: Graph, e: Event) {
    && e.EdgeAdded? && !Resolved(Ids(g.nodes), e.offer.key) && e.offer.key !in Queued(g.queue)
    && |g.queue| >= ORPHAN_QUEUE_MAX
  }

  lemma EdgeAddedKeeps(g: Graph, o: Offer)
    requires Ok(g)
    ensures Ok(AfterEdgeAdded(g, o))
    ensures var t := AfterEdgeAdded(g, o);
      && t.nodes == g.nodes
      && Keys(t.edges) == Keys(g.edges) + (if Resolved(Ids(g.nodes), o.key) then {o.key} else {})
      && (!Overflows(g, EdgeAdded(o)) ==>
            Queued(t.queue) == Queued(g.queue) + (if Resolved(Ids(g.nodes), o.key) then {} else {o.key}))
      && (Overflows(g, EdgeAdded(o)) ==> Queued(t.queue) == Queued(g.queue) - {g.queue[0].key} + {o.key})
  {
    if Resolved(Ids(g.nodes), o.key) {
      WithEdgeKeeps(Ids(g.nodes), g.edges, o);
    } else if o.key !in Queued(g.queue) {
      forall i | 0 <= i < |g.queue| ensures g.queue[i].key != o.key {
        assert g.queue[i] in g.queue;
      }
      if |g.queue| >= ORPHAN_QUEUE_MAX {
        QueuedSplits(g.queue);
        FirstOnlyOnce(g.queue);
        QueuedAppend(g.queue[1..], o);
      } else {
        QueuedAppend(g.queue, o);
      }
    }
  }

  lemma FirstOnlyOnce(queue: seq<Offer>)
    requires queue != [] && UniqueOffers(queue)
    ensures queue[0].key !in Queued(queue[1..])
  {
    forall o | o in queue[1..] ensures o.key != queue[0].key {
      var i :| 0 < i < |queue| && queue[i] == o;
    }
  }

  lemma QueuedAppend(queue: seq<Offer>, o: Offer)
    ensures Queued(queue + [o]) == Queued(queue) + {o.key}
  {
    forall k | k in Queued(queue) ensures k in Queued(queue + [o]) {
      var q :| q in queue && q.key == k;
      assert q in queue + [o];
    }
    assert o in queue + [o];
  }

  lemma EdgeUpdatedKeeps(g: Graph, key: Key, weight: Option<real>, confidence: Option<real>)
    requires Ok(g)
    ensures Ok(g.(edges := AllReweighed(g.edges, key, weight, confidence)))
  {
    var edges := AllReweighed(g.edges, key, weight, confidence);
    assert forall i | 0 <= i < |edges| :: edges[i].key == g.edges[i].key;
    forall e | e in edges ensures Resolved(Ids(g.nodes), e.key) {
      var i :| 0 <= i < |edges| && edges[i] == e;
      assert g.edges[i] in g.edges;
    }
  }

  lemma {:induction false} WithoutEdgeElements(edges: seq<Edge>, key: Key)
    ensures forall e :: e in WithoutEdge(edges, key) <==> e in edges && e.key != key
    ensures UniqueEdges(edges) ==> UniqueEdges(WithoutEdge(edges, key))
  {
    if edges != [] {
      WithoutEdgeElements(edges[1..], key);
      assert edges == [edges[0]] + edges[1..];
    }
  }

  lemma {:induction false} WithoutNodesElements(nodes: seq<Node>, lost: set<string>)
    ensures forall n :: n in WithoutNodes(nodes, lost) <==> n in nodes && n.id !in lost
    ensures UniqueNodes(nodes) ==> UniqueNodes(WithoutNodes(nodes, lost))
  {
    if nodes != [] {
      WithoutNodesElements(nodes[1..], lost);
      assert nodes == [nodes[0]] + nodes[1..];
    }
  }

  /** Removal takes away the edge and exactly the nodes it leaves without any edge. */
  lemma EdgeRemovedKeeps(g: Graph, key: Key)
    requires Ok(g)
    ensures Ok(AfterEdgeRemoved(g, key))
    ensures var t := AfterEdgeRemoved(g, key);
      && Keys(t.edges) == Keys(g.edges) - {key}
      && Ids(t.nodes) == Ids(g.nodes) - (Touched(g.edges) - Touched(t.edges))
      && t.queue == g.queue
  {
    var t := AfterEdgeRemoved(g, key);
    var lost := Touched(g.edges) - Touched(t.edges);
    WithoutEdgeElements(g.edges, key);
    WithoutNodesElements(g.nodes, lost);
    KeysWithout(g.edges, t.edges, key);
    forall e | e in t.edges ensures Resolved(Ids(t.nodes), e.key) {
      assert e in g.edges && e.key.source in Touched(t.edges) && e.key.target in Touched(t.edges);
    }
  }

  lemma KeysWithout(edges: seq<Edge>, left: seq<Edge>, key: Key)
    requires forall e :: e in left <==> e in edges && e.key != key
    ensures Keys(left) == Keys(edges) - {key}
  {
  }

  lemma NodeEventKeeps(g: Graph, e: Event)
    requires Ok(g) && (e.NodeAdded? || e.NodeUpdated?)
    ensures Ok(After(g, e))
  {
    if e.NodeAdded? {
      NodeAddedKeeps(g, NodeOf(e));
    } else {
      NodeUpdatedKeeps(g, e.id, e.caption, e.kind, e.lastUpdated);
    }
  }

  lemma EventKeeps(g: Graph, e: Event)
    requires Ok(g)
    ensures Ok(After(g, e))
  {
    match e
    case EdgeAdded(o) => EdgeAddedKeeps(g, o);
    case EdgeUpdated(key, weight, confidence) => EdgeUpdatedKeeps(g, key, weight, confidence);
    case EdgeRemoved(key) => EdgeRemovedKeeps(g, key);
    case _ => NodeEventKeeps(g, e);
  }

  // ---------------------------------------------------------------------------
  // What one event writes
  // ---------------------------------------------------------------------------

  /** An edge as its offer has it: weight and confidence are 1 and the caption is empty unless offered. */
  predicate DrawnFrom(e: Edge, o: Offer) {
    && e.key == o.key && e.weight == (if o.weight == None then 1.0 else o.weight.value)
    && e.confidence == (if o.confidence == None then 1.0 else o.confidence.value)
    && (if o.caption == None then e.caption == "" else e.caption == o.caption.value)
  }

  /** `value` is what was given, if that is not empty, and else what was there. */
  predicate Overwritten(value: string, given: Option<string>, was: string) {
    if given == None || given == Some("") then value == was else given == Some(value)
  }

  predicate DrawnFromQueue(e: Edge, queue: seq<Offer>) {
    exists i | 0 <= i < |queue| :: DrawnFrom(e, queue[i])
  }

  /** The edges after the first `n` are each drawn from an offer in the queue. */
  predicate AllDrawn(drawn: seq<Edge>, n: nat, queue: seq<Offer>) {
    forall i | n <= i < |drawn| :: DrawnFromQueue(drawn[i], queue)
  }

  lemma {:induction false} DrainedDraws(ids: set<string>, edges: seq<Edge>, queue: seq<Offer>)
    ensures edges <= Drained(ids, edges, queue) && AllDrawn(Drained(ids, edges, queue), |edges|, queue)
    decreases queue
  {
    if queue != [] {
      DrainedDraws(ids, edges, queue[1..]);
      var later := Drained(ids, edges, queue[1..]);
      MoreDrawn(later, |edges|, queue);
      if Resolved(ids, queue[0].key) {
        OneDrawn(later, |edges|, queue, 0);
      }
    }
  }

  lemma MoreDrawn(drawn: seq<Edge>, n: nat, queue: seq<Offer>)
    requires queue != [] && AllDrawn(drawn, n, queue[1..])
    ensures AllDrawn(drawn, n, queue)
  {
    forall i | n <= i < |drawn| ensures DrawnFromQueue(drawn[i], queue) {
      assert DrawnFromQueue(drawn[i], queue[1..]);
      var k :| 0 <= k < |queue[1..]| && DrawnFrom(drawn[i], queue[1..][k]);
      assert queue[1..][k] == queue[k + 1];
    }
  }

  lemma OneDrawn(drawn: seq<Edge>, n: nat, queue: seq<Offer>, k: nat)
    requires k < |queue| && AllDrawn(drawn, n, queue)
    ensures drawn <= WithEdge(drawn, queue[k]) && AllDrawn(WithEdge(drawn, queue[k]), n, queue)
  {
    assert DrawnFrom(EdgeOf(queue[k]), queue[k]);
  }

  lemma {:induction false} OrphansStayInOrder(ids: set<string>, queue: seq<Offer>)
    ensures InOrder(queue, StillOrphaned(ids, queue))
  {
    if queue == [] {
      NothingInOrder(queue);
    } else {
      var rest := StillOrphaned(ids, queue[1..]);
      OrphansStayInOrder(ids, queue[1..]);
      InOrderOfRest(queue, rest);
      assert StillOrphaned(ids, queue) == if Resolved(ids, queue[0].key) then rest else [queue[0]] + rest;
    }
  }

  lemma {:induction false} OrphansAre(ids: set<string>, queue: seq<Offer>, o: Offer)
    ensures o in StillOrphaned(ids, queue) <==> o in queue && !Resolved(ids, o.key)
  {
    if queue != [] {
      OrphansAre(ids, queue[1..], o);
      assert queue == [queue[0]] + queue[1..];
    }
  }

  /** A new node is the last one; edges already drawn stay as they are, each edge drawn after them is one
      that the queue offered, and the offers that still miss a node keep their order. A node whose id is
      known changes nothing. */
  lemma NodeAddedWrites(g: Graph, node: Node)
    requires Ok(g)
    ensures var t := AfterNodeAdded(g, node);
      if node.id in Ids(g.nodes) then t == g
      else
        && t.nodes == g.nodes + [node] && g.edges <= t.edges
        && AllDrawn(t.edges, |g.edges|, g.queue)
        && InOrder(g.queue, t.queue)
        && (forall o :: o in t.queue <==> o in g.queue && !Resolved(Ids(t.nodes), o.key))
  {
    if node.id !in Ids(g.nodes) {
      var ids := Ids(g.nodes + [node]);
      DrainedDraws(ids, g.edges, g.queue);
      OrphansStayInOrder(ids, g.queue);
      forall o ensures o in StillOrphaned(ids, g.queue) <==> o in g.queue && !Resolved(ids, o.key) {
        OrphansAre(ids, g.queue, o);
      }
    }
  }

  /** A node update writes the fields it gives to the node of that id, and nothing else. */
  lemma NodeUpdatedWrites(g: Graph, id: string, caption: Option<string>, kind: Option<string>,
      lastUpdated: Option<string>)
    requires Ok(g)
    ensures var t := AfterNodeUpdated(g, id, caption, kind, lastUpdated);
      && t.edges == g.edges && t.queue == g.queue && |t.nodes| == |g.nodes|
      && forall i | 0 <= i < |g.nodes| ::
        if g.nodes[i].id != id then t.nodes[i] == g.nodes[i]
        else
          && t.nodes[i].id == id && Overwritten(t.nodes[i].caption, caption, g.nodes[i].caption)
          && Overwritten(t.nodes[i].kind, kind, g.nodes[i].kind)
          && Overwritten(t.nodes[i].lastUpdated, lastUpdated, g.nodes[i].lastUpdated)
  {
    var at := Find(g.nodes, id);
    if at < |g.nodes| {
      assert forall i | 0 <= i < |g.nodes| && i != at :: g.nodes[i].id != id;
    }
  }

  /** A new edge changes no other edge and no node. With both nodes there it becomes the last edge, as
      offered, unless its key is drawn already; else it becomes the last in the queue, unless its key is
      there, and only the oldest of 200 offers gives way to it. */
  lemma EdgeAddedWrites(g: Graph, o: Offer)
    requires Ok(g)
    ensures var t := AfterEdgeAdded(g, o);
      && t.nodes == g.nodes && g.edges <= t.edges
      && (if Resolved(Ids(g.nodes), o.key) && o.key !in Keys(g.edges)
          then |t.edges| == |g.edges| + 1 && DrawnFrom(t.edges[|g.edges|], o) else t.edges == g.edges)
      && (if Resolved(Ids(g.nodes), o.key) || o.key in Queued(g.queue) then t.queue == g.queue
          else
            && t.queue != [] && t.queue[|t.queue| - 1] == o && |t.queue| <= ORPHAN_QUEUE_MAX
            && forall q :: q in t.queue <==>
                 q == o || (q in g.queue && !(|g.queue| == ORPHAN_QUEUE_MAX && q == g.queue[0])))
  {
    if !Resolved(Ids(g.nodes), o.key) && o.key !in Queued(g.queue) && |g.queue| == ORPHAN_QUEUE_MAX {
      FirstOnlyOnce(g.queue);
      var rest := g.queue[1..];
      assert g.queue == [g.queue[0]] + rest;
      assert forall q | q in rest :: q.key in Queued(rest);
    }
  }

  /** An edge update writes the numbers it gives to the edge of that key, and nothing else. */
  lemma EdgeUpdatedWrites(g: Graph, key: Key, weight: Option<real>, confidence: Option<real>)
    ensures var t := After(g, EdgeUpdated(key, weight, confidence));
      && t.nodes == g.nodes && t.queue == g.queue && |t.edges| == |g.edges|
      && forall i | 0 <= i < |g.edges| ::
        if g.edges[i].key != key then t.edges[i] == g.edges[i]
        else
          && t.edges[i].key == key && t.edges[i].caption == g.edges[i].caption
          && (if weight == None then t.edges[i].weight == g.edges[i].weight else weight == Some(t.edges[i].weight))
          && (if confidence == None then t.edges[i].confidence == g.edges[i].confidence
              else confidence == Some(t.edges[i].confidence))
  {
  }

  lemma {:induction false} WithoutEdgeInOrder(edges: seq<Edge>, key: Key)
    ensures InOrder(edges, WithoutEdge(edges, key))
  {
    if edges == [] {
      NothingInOrder(edges);
    } else {
      var left := WithoutEdge(edges[1..], key);
      WithoutEdgeInOrder(edges[1..], key);
      InOrderOfRest(edges, left);
      assert WithoutEdge(edges, key) == if edges[0].key == key then left else [edges[0]] + left;
    }
  }

  lemma {:induction false} WithoutNodesInOrder(nodes: seq<Node>, lost: set<string>)
    ensures InOrder(nodes, WithoutNodes(nodes, lost))
  {
    if nodes == [] {
      NothingInOrder(nodes);
    } else {
      var left := WithoutNodes(nodes[1..], lost);
      WithoutNodesInOrder(nodes[1..], lost);
      InOrderOfRest(nodes, left);
      assert WithoutNodes(nodes, lost) == if nodes[0].id in lost then left else [nodes[0]] + left;
    }
  }

  predicate Touches(edges: seq<Edge>, id: string) {
    exists i | 0 <= i < |edges| :: edges[i].key.source == id || edges[i].key.target == id
  }

  lemma TouchedByAnEdge(edges: seq<Edge>, id: string)
    ensures id in Touched(edges) <==> Touches(edges, id)
  {
    if Touches(edges, id) {
      var i :| 0 <= i < |edges| && (edges[i].key.source == id || edges[i].key.target == id);
      assert edges[i] in edges;
    }
  }

  /** Removal leaves the other edges, and the nodes that have an edge left or never had one, as they are
      and in their order. */
  lemma EdgeRemovedWrites(g: Graph, key: Key)
    ensures var t := AfterEdgeRemoved(g, key);
      && t.queue == g.queue && InOrder(g.edges, t.edges) && InOrder(g.nodes, t.nodes)
      && (forall e :: e in t.edges <==> e in g.edges && e.key != key)
      && (forall n :: n in t.nodes <==> n in g.nodes && (Touches(t.edges, n.id) || !Touches(g.edges, n.id)))
  {
    var t := AfterEdgeRemoved(g, key);
    var lost := Touched(g.edges) - Touched(t.edges);
    WithoutEdgeElements(g.edges, key);
    WithoutEdgeInOrder(g.edges, key);
    WithoutNodesElements(g.nodes, lost);
    WithoutNodesInOrder(g.nodes, lost);
    forall n: Node ensures n.id in lost <==> Touches(g.edges, n.id) && !Touches(t.edges, n.id) {
      TouchedByAnEdge(g.edges, n.id);
      TouchedByAnEdge(t.edges, n.id);
    }
  }

  function Run(g: Graph, events: seq<Event>): Graph {
    if events == [] then g else After(Run(g, events[..|events| - 1]), events[|events| - 1])
  }

  /** Whatever events arrive, ids and edge triples stay unique, endpoints resolved, and the queue
      bounded and free of edges that could be drawn. */
  lemma {:induction false} RunKeeps(g: Graph, events: seq<Event>)
    requires Ok(g)
    ensures Ok(Run(g, events))
  {
    if events != [] {
      RunKeeps(g, events[..|events| - 1]);
      EventKeeps(Run(g, events[..|events| - 1]), events[|events| - 1]);
    }
  }

  // ---------------------------------------------------------------------------
  // Order of arrival
  // ---------------------------------------------------------------------------

  predicate AddOnly(events: seq<Event>) {
    forall e | e in events :: e.NodeAdded? || e.EdgeAdded?
  }

  function NewIds(events: seq<Event>): set<string> {
    set e | e in events && e.NodeAdded? :: e.id
  }

  function Offered(events: seq<Event>): set<Key> {
    set e | e in events && e.EdgeAdded? :: e.offer.key
  }

  predicate NeverOverflows(g: Graph, events: seq<Event>) {
    events == [] || (NeverOverflows(g, events[..|events| - 1])
        && !Overflows(Run(g, events[..|events| - 1]), events[|events| - 1]))
  }

  lemma LastEvent(events: seq<Event>)
    requires events != []
    ensures var front, e := events[..|events| - 1], events[|events| - 1];
      && (AddOnly(events) ==> AddOnly(front) && (e.NodeAdded? || e.EdgeAdded?))
      && NewIds(events) == NewIds(front) + (if e.NodeAdded? then {e.id} else {})
      && Offered(events) == Offered(front) + (if e.EdgeAdded? then {e.offer.key} else {})
  {
    var front, e := events[..|events| - 1], events[|events| - 1];
    assert events == front + [e];
    assert forall x :: x in events <==> x in front || x == e;
  }

  /** `t` is `g` with these ids and every one of these edges drawn or queued. */
  predicate AddsUp(g: Graph, t: Graph, ids: set<string>, keys: set<Key>) {
    && Ids(t.nodes) == ids
    && Keys(t.edges) == Keys(g.edges) + ResolvedOf(ids, keys)
    && Queued(t.queue) == keys - ResolvedOf(ids, keys)
  }

  lemma NodeAddsUp(g: Graph, t: Graph, ids: set<string>, keys: set<Key>, node: Node)
    requires Ok(t) && AddsUp(g, t, ids, keys)
    ensures AddsUp(g, AfterNodeAdded(t, node), ids + {node.id}, keys)
  {
    NodeAddedKeeps(t, node);
    GrowIds(Keys(g.edges), keys, ids, node.id);
  }

  lemma EdgeAddsUp(g: Graph, t: Graph, ids: set<string>, keys: set<Key>, o: Offer)
    requires Ok(t) && AddsUp(g, t, ids, keys) && !Overflows(t, EdgeAdded(o))
    ensures AddsUp(g, AfterEdgeAdded(t, o), ids, keys + {o.key})
  {
    EdgeAddedKeeps(t, o);
    GrowKeys(Keys(g.edges), keys, ids, o.key);
  }

  /** What additions that never overflow the queue amount to, whatever their order: all ids, and every
      offered edge, drawn if both its nodes have arrived and queued otherwise. */
  lemma {:induction false} AdditionsAddUp(g: Graph, events: seq<Event>)
    requires Ok(g) && AddOnly(events) && NeverOverflows(g, events)
    ensures AddsUp(g, Run(g, events), Ids(g.nodes) + NewIds(events), Queued(g.queue) + Offered(events))
  {
    if events == [] {
      OrphansByKey(g);
      assert ResolvedOf(Ids(g.nodes), Queued(g.queue)) == {};
    } else {
      var front, e := events[..|events| - 1], events[|events| - 1];
      LastEvent(events);
      AdditionsAddUp(g, front);
      RunKeeps(g, front);
      var ids, keys := Ids(g.nodes) + NewIds(front), Queued(g.queue) + Offered(front);
      if e.NodeAdded? {
        NodeAddsUp(g, Run(g, front), ids, keys, NodeOf(e));
        assert Ids(g.nodes) + NewIds(events) == ids + {e.id} && Queued(g.queue) + Offered(events) == keys;
      } else {
        EdgeAddsUp(g, Run(g, front), ids, keys, e.offer);
        assert Ids(g.nodes) + NewIds(events) == ids && Queued(g.queue) + Offered(events) == keys + {e.offer.key};
      }
    }
  }

  lemma GrowIds(drawn: set<Key>, keys: set<Key>, ids: set<string>, id: string)
    ensures var open := keys - ResolvedOf(ids, keys);
      && drawn + ResolvedOf(ids, keys) + ResolvedOf(ids + {id}, open) == drawn + ResolvedOf(ids + {id}, keys)
      && open - ResolvedOf(ids + {id}, open) == keys - ResolvedOf(ids + {id}, keys)
  {
  }

  lemma GrowKeys(drawn: set<Key>, keys: set<Key>, ids: set<string>, k: Key)
    ensures var more := ResolvedOf(ids, keys + {k});
      && drawn + ResolvedOf(ids, keys) + (if Resolved(ids, k) then {k} else {}) == drawn + more
      && keys - ResolvedOf(ids, keys) + (if Resolved(ids, k) then {} else {k}) == keys + {k} - more
  {
  }

  /** Two streams of the same additions that never overflow end in the same nodes, edges and queue. */
  lemma OrderDoesNotMatter(g: Graph, first: seq<Event>, second: seq<Event>)
    requires Ok(g) && AddOnly(first) && NeverOverflows(g, first) && NeverOverflows(g, second)
    requires forall e :: e in first <==> e in second
    ensures Ids(Run(g, first).nodes) == Ids(Run(g, second).nodes)
    ensures Keys(Run(g, first).edges) == Keys(Run(g, second).edges)
    ensures Queued(Run(g, first).queue) == Queued(Run(g, second).queue)
  {
    assert NewIds(first) == NewIds(second) && Offered(first) == Offered(second);
    AdditionsAddUp(g, first);
    AdditionsAddUp(g, second);
  }

  lemma {:induction false} QueuedCount(queue: seq<Offer>)
    requires UniqueOffers(queue)
    ensures |Queued(queue)| == |queue|
  {
    if queue == [] {
      assert Queued(queue) == {};
    } else {
      QueuedSplits(queue);
      FirstOnlyOnce(queue);
      QueuedCount(queue[1..]);
    }
  }

  /** Streams naming at most 200 different edges never overflow. */
  lemma {:induction false} FewEdgesNeverOverflow(g: Graph, events: seq<Event>)
    requires Ok(g) && AddOnly(events)
    requires |Queued(g.queue) + Offered(events)| <= ORPHAN_QUEUE_MAX
    ensures NeverOverflows(g, events)
  {
    if events != [] {
      var front, e := events[..|events| - 1], events[|events| - 1];
      LastEvent(events);
      SubsetSize(Queued(g.queue) + Offered(front), Queued(g.queue) + Offered(events));
      FewEdgesNeverOverflow(g, front);
      var t := Run(g, front);
      if Overflows(t, e) {
        AdditionsAddUp(g, front);
        RunKeeps(g, front);
        QueuedCount(t.queue);
        SubsetSize(Queued(t.queue) + {e.offer.key}, Queued(g.queue) + Offered(events));
      }
    }
  }

  /** A new node and an edge may arrive in either order, unless the edge pushes out of the full queue
      an edge that the node would have completed. */
  lemma NodeAndEdgeCommuteUnlessOverflow(g: Graph, node: Event, edge: Event)
    requires Ok(g) && node.NodeAdded? && edge.EdgeAdded?
    ensures Keys(After(After(g, node), edge).edges) == Keys(After(After(g, edge), node).edges) <==>
      !(Overflows(g, edge) && Resolved(Ids(g.nodes) + {node.id}, g.queue[0].key))
  {
    var o := edge.offer;
    NodeAddedKeeps(g, NodeOf(node));
    EdgeAddedKeeps(After(g, node), o);
    EdgeAddedKeeps(g, o);
    NodeAddedKeeps(After(g, edge), NodeOf(node));
    NotDrawn(g);
    if Overflows(g, edge) {
      assert g.queue[0] in g.queue;
      PushedOut(Keys(g.edges), Queued(g.queue), Ids(g.nodes), node.id, o.key, g.queue[0].key);
    } else {
      NothingPushedOut(Keys(g.edges), Queued(g.queue), Ids(g.nodes), node.id, o.key);
    }
  }

  lemma PushedOut(drawn: set<Key>, queued: set<Key>, ids: set<string>, id: string, k: Key, oldest: Key)
    requires oldest in queued && k !in queued && drawn !! queued && !Resolved(ids, k)
    ensures var late := if Resolved(ids + {id}, k) then {k} else {};
      drawn + ResolvedOf(ids + {id}, queued) + late == drawn + ResolvedOf(ids + {id}, queued - {oldest} + {k})
      <==> !Resolved(ids + {id}, oldest)
  {
    if Resolved(ids + {id}, oldest) {
      assert oldest in ResolvedOf(ids + {id}, queued) && oldest !in ResolvedOf(ids + {id}, queued - {oldest} + {k});
    }
  }

  lemma NothingPushedOut(drawn: set<Key>, queued: set<Key>, ids: set<string>, id: string, k: Key)
    ensures var now, late := if Resolved(ids, k) then {k} else {}, if Resolved(ids + {id}, k) then {k} else {};
      drawn + ResolvedOf(ids + {id}, queued) + late
        == drawn + now + ResolvedOf(ids + {id}, queued + (if Resolved(ids, k) then {} else {k}))
  {
  }

  lemma NotDrawn(g: Graph)
    requires Ok(g)
    ensures Keys(g.edges) !! Queued(g.queue)
    ensures forall k | k in Keys(g.edges) :: Resolved(Ids(g.nodes), k)
  {
    OrphansByKey(g);
  }

  /** A removal does not reach the queue: it changes nothing for a queued edge. */
  lemma RemovalMissesTheQueue(g: Graph, key: Key)
    requires Ok(g) && key in Queued(g.queue)
    ensures AfterEdgeRemoved(g, key) == g
  {
    NotDrawn(g);
    forall e | e in g.edges ensures e.key != key {
      assert e.key in Keys(g.edges);
    }
    NothingWithout(g.edges, key);
    KeepAll(g.nodes, Touched(g.edges) - Touched(g.edges));
  }

  /** So a removed edge is drawn all the same when a node arrives, exactly when it was queued and the
      node was the one it was waiting for. */
  lemma RemovedOrphanReturns(g: Graph, key: Key, node: Event)
    requires Ok(g) && node.NodeAdded?
    ensures key in Keys(After(After(g, EdgeRemoved(key)), node).edges) <==>
      key in Queued(g.queue) && Resolved(Ids(AfterEdgeRemoved(g, key).nodes) + {node.id}, key)
  {
    var bare := AfterEdgeRemoved(g, key);
    assert After(g, EdgeRemoved(key)) == bare;
    EdgeRemovedKeeps(g, key);
    NodeAddedKeeps(bare, NodeOf(node));
  }

  lemma {:induction false} NothingWithout(edges: seq<Edge>, key: Key)
    requires forall e | e in edges :: e.key != key
    ensures WithoutEdge(edges, key) == edges
  {
    if edges != [] {
      NothingWithout(edges[1..], key);
    }
  }

  lemma {:induction false} KeepAll(nodes: seq<Node>, lost: set<string>)
    requires lost == {}
    ensures WithoutNodes(nodes, lost) == nodes
  {
    if nodes != [] {
      KeepAll(nodes[1..], lost);
    }
  }

  // ---------------------------------------------------------------------------
  // Loading a snapshot
  // ---------------------------------------------------------------------------

  function Endpoints(edges: seq<Edge>): (s: seq<string>)
    ensures |s| == 2 * |edges|
  {
    if edges == [] then []
    else Endpoints(edges[..|edges| - 1]) + [edges[|edges| - 1].key.source, edges[|edges| - 1].key.target]
  }

  /** The endpoints that name no known node, each once; empty names are passed over. */
  function Missing(known: set<string>, endpoints: seq<string>): (missing: seq<string>)
    ensures forall i | 0 <= i < |missing| :: missing[i] != "" && missing[i] !in known
    ensures forall i, j | 0 <= i < j < |missing| :: missing[i] != missing[j]
    ensures forall p :: p in missing <==> p in endpoints && p != "" && p !in known
  {
    if endpoints == [] then []
    else
      var before, last := Missing(known, endpoints[..|endpoints| - 1]), endpoints[|endpoints| - 1];
      assert endpoints == endpoints[..|endpoints| - 1] + [last];
      if last == "" || last in known || last in before then before else before + [last]
  }

  function Synthetic(id: string): Node {
    Node(id, id, "unknown", "")
  }

  function Synthesised(ids: seq<string>): (nodes: seq<Node>)
    ensures |nodes| == |ids| && forall i | 0 <= i < |ids| :: nodes[i] == Synthetic(ids[i])
  {
    seq(|ids|, i requires 0 <= i < |ids| => Synthetic(ids[i]))
  }

  function Completed(nodes: seq<Node>, edges: seq<Edge>): seq<Node> {
    nodes + Synthesised(Missing(Ids(nodes) - {""}, Endpoints(edges)))
  }

  function Loaded(nodes: seq<Node>, edges: seq<Edge>): Graph {
    Graph(Completed(nodes, edges), edges, [])
  }

  lemma {:induction false} EndpointsOfEdges(edges: seq<Edge>)
    ensures forall p :: p in Endpoints(edges) <==> p in Touched(edges)
  {
    if edges != [] {
      var front, last := edges[..|edges| - 1], edges[|edges| - 1];
      EndpointsOfEdges(front);
      assert edges == front + [last];
      assert forall e :: e in edges <==> e in front || e == last;
      assert Touched(edges) == Touched(front) + {last.key.source, last.key.target};
    }
  }

  lemma CompletedIds(nodes: seq<Node>, edges: seq<Edge>)
    ensures Ids(Completed(nodes, edges)) == Ids(nodes) + (Touched(edges) - {""})
    ensures UniqueNodes(Completed(nodes, edges)) <==> UniqueNodes(nodes)
  {
    var missing := Missing(Ids(nodes) - {""}, Endpoints(edges));
    EndpointsOfEdges(edges);
    SynthesisedIds(missing);
    IdsConcat(nodes, Synthesised(missing));
    CompletedUnique(nodes, missing);
  }

  lemma CompletedUnique(nodes: seq<Node>, missing: seq<string>)
    requires forall i | 0 <= i < |missing| :: missing[i] != "" && missing[i] !in Ids(nodes) - {""}
    requires forall i, j | 0 <= i < j < |missing| :: missing[i] != missing[j]
    ensures UniqueNodes(nodes + Synthesised(missing)) <==> UniqueNodes(nodes)
  {
    var all := nodes + Synthesised(missing);
    assert forall i | 0 <= i < |nodes| :: all[i] == nodes[i];
    forall i, j | 0 <= i < |nodes| <= j < |all| ensures all[i].id != all[j].id {
      assert nodes[i] in nodes && all[j].id == missing[j - |nodes|];
    }
    forall i, j | |nodes| <= i < j < |all| ensures all[i].id != all[j].id {
      assert all[i].id == missing[i - |nodes|] && all[j].id == missing[j - |nodes|];
    }
  }

  lemma SynthesisedIds(ids: seq<string>)
    ensures forall id :: id in Ids(Synthesised(ids)) <==> id in ids
  {
    forall id | id in ids ensures id in Ids(Synthesised(ids)) {
      var i :| 0 <= i < |ids| && ids[i] == id;
      assert Synthesised(ids)[i] in Synthesised(ids);
    }
  }

  lemma IdsConcat(a: seq<Node>, b: seq<Node>)
    ensures Ids(a + b) == Ids(a) + Ids(b)
  {
    assert forall n :: n in a + b <==> n in a || n in b;
  }

  /** Loading establishes the invariant exactly for snapshots without repeated nodes or edges and
      without nameless endpoints, other than of a nameless node. */
  lemma LoadEstablishesInvariant(nodes: seq<Node>, edges: seq<Edge>)
    ensures Ok(Loaded(nodes, edges)) <==>
      UniqueNodes(nodes) && UniqueEdges(edges) && ("" in Touched(edges) ==> "" in Ids(nodes))
  {
    CompletedIds(nodes, edges);
    forall e | e in edges ensures e.key.source in Touched(edges) && e.key.target in Touched(edges) {
    }
    if "" in Touched(edges) && "" !in Ids(nodes) {
      var e :| e in edges && (e.key.source == "" || e.key.target == "");
      assert !Resolved(Ids(Completed(nodes, edges)), e.key);
    }
  }

  /** Loading takes the snapshot's nodes and edges as they are and empties the queue; each endpoint that
      is not empty and has no node gets one, called by its id. */
  lemma LoadKeepsSnapshot(nodes: seq<Node>, edges: seq<Edge>)
    ensures var t := Loaded(nodes, edges);
      && nodes <= t.nodes && t.edges == edges && t.queue == []
      && (forall id :: id in Ids(t.nodes[|nodes|..]) <==> id != "" && Touches(edges, id) && id !in Ids(nodes))
      && (forall i | |nodes| <= i < |t.nodes| ::
            t.nodes[i].caption == t.nodes[i].id && forall j | |nodes| <= j < i :: t.nodes[i].id != t.nodes[j].id)
  {
    var t := Loaded(nodes, edges);
    var missing := Missing(Ids(nodes) - {""}, Endpoints(edges));
    assert t.nodes[|nodes|..] == Synthesised(missing);
    SynthesisedIds(missing);
    EndpointsOfEdges(edges);
    forall id ensures id in missing <==> id != "" && Touches(edges, id) && id !in Ids(nodes) {
      TouchedByAnEdge(edges, id);
    }
    forall i | |nodes| <= i < |t.nodes| ensures t.nodes[i] == Synthetic(missing[i - |nodes|]) {
    }
  }

  // ---------------------------------------------------------------------------
  // The graph as the console patches it
  // ---------------------------------------------------------------------------

  class GraphView {
    var nodes: seq<Node>
    var edges: seq<Edge>
    var queue: seq<Offer>

    function State(): Graph
      reads this
    {
      Graph(nodes, edges, queue)
    }

    constructor ()
      ensures State() == Graph([], [], [])
    {
      nodes, edges, queue := [], [], [];
    }

    /** How far endpoint completion has come after seeing some endpoints. */
    ghost predicate Completing(base: seq<Node>, known: set<string>, seen: seq<string>)
      reads this
    {
      var missing := Missing(Ids(base) - {""}, seen);
      nodes == base + Synthesised(missing) && forall p :: p in known <==> p in Ids(base) - {""} || p in missing
    }

    method AddEndpoint(p: string, known: set<string>, ghost base: seq<Node>, ghost seen: seq<string>)
        returns (more: set<string>)
      requires Completing(base, known, seen)
      modifies this`nodes
      ensures Completing(base, more, seen + [p])
    {
      MissingNext(Ids(base) - {""}, seen, p);
      more := known;
      if p != "" && p !in known {
        more := more + {p};
        nodes := nodes + [Synthetic(p)];
      }
    }

    /** Endpoint completion; an endpoint without a node gets a synthetic one. */
    method Load(snapshotNodes: seq<Node>, snapshotEdges: seq<Edge>)
      modifies this
      ensures State() == Loaded(snapshotNodes, snapshotEdges)
    {
      queue := [];
      nodes, edges := snapshotNodes, snapshotEdges;
      var known := Ids(snapshotNodes) - {""};
      for i := 0 to |snapshotEdges|
        invariant edges == snapshotEdges && queue == []
        invariant Completing(snapshotNodes, known, Endpoints(snapshotEdges[..i]))
      {
        var key := snapshotEdges[i].key;
        ghost var seen := Endpoints(snapshotEdges[..i]);
        EndpointsNext(snapshotEdges, i);
        known := AddEndpoint(key.source, known, snapshotNodes, seen);
        known := AddEndpoint(key.target, known, snapshotNodes, seen + [key.source]);
      }
      assert snapshotEdges[..|snapshotEdges|] == snapshotEdges;
    }

    method DrainQueue()
      modifies this`edges, this`queue
      ensures edges == Drained(Ids(nodes), old(edges), old(queue))
      ensures queue == StillOrphaned(Ids(nodes), old(queue))
    {
      ghost var ids, was := Ids(nodes), queue;
      for i := |queue| downto 0
        invariant i <= |was| && queue == was[..i] + StillOrphaned(ids, was[i..])
        invariant edges == Drained(ids, old(edges), was[i..])
      {
        var op := queue[i];
        assert op == was[i] && was[i..][0] == was[i] && was[i..][1..] == was[i + 1..];
        if Resolved(Ids(nodes), op.key) {
          queue := queue[..i] + queue[i + 1..];
          if op.key !in Keys(edges) {
            edges := edges + [EdgeOf(op)];
          }
        }
      }
    }

    method AddNode(node: Node)
      modifies this
      ensures State() == AfterNodeAdded(old(State()), node)
    {
      if node.id !in Ids(nodes) {
        nodes := nodes + [node];
        DrainQueue();
      }
    }

    method AddEdge(o: Offer)
      modifies this
      ensures State() == AfterEdgeAdded(old(State()), o)
    {
      if o.key.source in Ids(nodes) && o.key.target in Ids(nodes) {
        if o.key !in Keys(edges) {
          edges := edges + [EdgeOf(o)];
        }
      } else if o.key !in Queued(queue) {
        if |queue| >= ORPHAN_QUEUE_MAX {
          queue := queue[1..];
        }
        queue := queue + [o];
      }
    }

    method UpdateEdges(key: Key, weight: Option<real>, confidence: Option<real>)
      modifies this`edges
      ensures edges == AllReweighed(old(edges), key, weight, confidence)
    {
      for i := 0 to |edges|
        invariant |edges| == |old(edges)|
        invariant forall j | 0 <= j < |edges| ::
          edges[j] == if j < i then Reweighed(old(edges)[j], key, weight, confidence) else old(edges)[j]
      {
        if edges[i].key == key {
          if weight.Some? {
            edges := edges[i := edges[i].(weight := weight.value)];
          }
          if confidence.Some? {
            edges := edges[i := edges[i].(confidence := confidence.value)];
          }
        }
      }
    }

    method SpliceEdges(key: Key)
      modifies this`edges
      ensures edges == WithoutEdge(old(edges), key)
    {
      ghost var was := edges;
      for i := |edges| downto 0
        invariant i <= |was| && edges == was[..i] + WithoutEdge(was[i..], key)
      {
        assert edges[i] == was[i] && was[i..][0] == was[i] && was[i..][1..] == was[i + 1..];
        if edges[i].key == key {
          edges := edges[..i] + edges[i + 1..];
        }
      }
    }

    method SpliceNodes(hadEdges: set<string>, stillConnected: set<string>)
      modifies this`nodes
      ensures nodes == WithoutNodes(old(nodes), hadEdges - stillConnected)
    {
      ghost var was, lost := nodes, hadEdges - stillConnected;
      for i := |nodes| downto 0
        invariant i <= |was| && nodes == was[..i] + WithoutNodes(was[i..], lost)
      {
        assert nodes[i] == was[i] && was[i..][0] == was[i] && was[i..][1..] == was[i + 1..];
        if nodes[i].id in hadEdges && nodes[i].id !in stillConnected {
          nodes := nodes[..i] + nodes[i + 1..];
        }
      }
    }

    method RemoveEdge(key: Key)
      modifies this`nodes, this`edges
      ensures State() == AfterEdgeRemoved(old(State()), key)
    {
      var hadEdges := Touched(edges);
      SpliceEdges(key);
      SpliceNodes(hadEdges, Touched(edges));
    }

    method Apply(e: Event)
      requires Ok(State())
      modifies this
      ensures State() == After(old(State()), e) && Ok(State())
    {
      EventKeeps(State(), e);
      match e
      case NodeAdded(_, _, _, _, _) => AddNode(NodeOf(e));
      case NodeUpdated(id, caption, kind, lastUpdated) =>
        var i := Find(nodes, id);
        if i < |nodes| {
          nodes := nodes[i := Relabelled(nodes[i], caption, kind, lastUpdated)];
        }
      case EdgeAdded(o) => AddEdge(o);
      case EdgeUpdated(key, weight, confidence) => UpdateEdges(key, weight, confidence);
      case EdgeRemoved(key) => RemoveEdge(key);
    }
  }

  lemma EndpointsNext(edges: seq<Edge>, i: nat)
    requires i < |edges|
    ensures Endpoints(edges[..i + 1]) == Endpoints(edges[..i]) + [edges[i].key.source] + [edges[i].key.target]
  {
    assert edges[..i + 1][..i] == edges[..i];
  }

  lemma MissingNext(known: set<string>, endpoints: seq<string>, p: string)
    ensures Missing(known, endpoints + [p]) == MissingOne(known, Missing(known, endpoints), p)
  {
    assert (endpoints + [p])[..|endpoints|] == endpoints;
  }

  function MissingOne(known: set<string>, missing: seq<string>, p: string): seq<string> {
    if p == "" || p in known || p in missing then missing else missing + [p]
  }
}
