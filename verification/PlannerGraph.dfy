/**
 The layered graph that the planner searches, and its exact correspondence with itineraries.
 */
module PlannerGraph {
  import opened Common
  import opened ServerTypes
  import opened SpanTable
  import opened ShortestPath
  import opened Itineraries

  /** `Source` and `Sink` stand for the two nodes with random peer ids. */
  datatype Vertex = Source | Sink | At(peer: PeerId, block: nat)

  const START_NODE: nat := 0
  const END_NODE: nat := 1

  ghost predicate Arc(net: Network, a: Vertex, b: Vertex, delay: real) {
    match (a, b)
    case (Source, At(q, c)) => c == 0 && c < net.numBlocks && Hosts(net, c, q) && delay == EntryDelay(net, q)
    case (At(p, b), Sink) => b + 1 == net.numBlocks && Hosts(net, b, p) && delay == ExitDelay(net, p)
    case (At(p, b), At(q, c)) => c == b + 1 && b < net.numBlocks && Hop(net, b, p, q, delay)
    case _ => false
  }

  type Ids = map<(PeerId, nat), nat>

  /** Node 0 is the source, node 1 the sink, and `ids` numbers the rest one to one. */
  ghost predicate Numbered(net: Network, nodes: seq<Vertex>, ids: Ids) {
    && |nodes| >= 2 && nodes[START_NODE] == Source && nodes[END_NODE] == Sink
    && (forall u: nat :: 2 <= u < |nodes| ==>
          && nodes[u].At? && nodes[u].block < net.numBlocks && Hosts(net, nodes[u].block, nodes[u].peer)
          && (nodes[u].peer, nodes[u].block) in ids && ids[(nodes[u].peer, nodes[u].block)] == u)
    && forall k :: k in ids ==> 2 <= ids[k] < |nodes| && nodes[ids[k]] == At(k.0, k.1)
  }

  /** Every node that the spans call for has a number. */
  ghost predicate AllNumbered(net: Network, ids: Ids) {
    forall p: PeerId, b: nat :: b < net.numBlocks && Hosts(net, b, p) ==> (p, b) in ids
  }

  ghost predicate HasEdge(adj: Graph, u: nat, e: Edge) {
    u < |adj| && e in adj[u]
  }

  /** The adjacency lists hold arcs only. */
  ghost predicate Sound(net: Network, nodes: seq<Vertex>, adj: Graph) {
    && |adj| == |nodes|
    && forall u: nat, e :: HasEdge(adj, u, e) ==> e.to < |nodes| && Arc(net, nodes[u], nodes[e.to], e.weight)
  }

  ghost predicate Grows(adj: Graph, adj': Graph) {
    |adj| == |adj'| && forall u: nat, e :: HasEdge(adj, u, e) ==> HasEdge(adj', u, e)
  }

  /** The adjacency lists hold all the arcs between the numbered nodes. */
  ghost predicate Complete(net: Network, nodes: seq<Vertex>, adj: Graph) {
    forall u: nat, v: nat, delay :: u < |nodes| && v < |nodes| && Arc(net, nodes[u], nodes[v], delay) ==>
      HasEdge(adj, u, Edge(v, delay))
  }

  /** `adj[u].push(e)` */
  function Push(adj: Graph, u: nat, e: Edge): (adj': Graph)
    requires u < |adj|
    ensures |adj'| == |adj|
    ensures forall v: nat, f :: HasEdge(adj', v, f) <==> HasEdge(adj, v, f) || (v == u && f == e)
  {
    adj[u := adj[u] + [e]]
  }

  ghost predicate SpansNumbered(spans: seq<Span>, b: nat, ids: Ids) {
    forall s :: s in spans ==> (s.peer, b) in ids
  }

  method NumberNode(net: Network, nodes0: seq<Vertex>, ids0: Ids, b: nat, span: Span)
    returns (nodes: seq<Vertex>, ids: Ids)
    requires Numbered(net, nodes0, ids0) && b < net.numBlocks && HostsBy(net, span, b, span.peer)
    ensures Numbered(net, nodes, ids)
    ensures ids.Keys == ids0.Keys + {(span.peer, b)}
  {
    nodes, ids := nodes0, ids0;
    var key := (span.peer, b);
    if key !in ids {
      ids := ids[key := |nodes|];
      nodes := nodes + [At(span.peer, b)];
    }
  }

  /** The loop over the spans at block `b`. */
  method NumberBlock(net: Network, nodes0: seq<Vertex>, ids0: Ids, b: nat, spans: seq<Span>)
    returns (nodes: seq<Vertex>, ids: Ids)
    requires Numbered(net, nodes0, ids0) && b < net.numBlocks && spans == Covering(net.spans, b)
    ensures Numbered(net, nodes, ids)
    ensures ids0.Keys <= ids.Keys && SpansNumbered(spans, b, ids)
  {
    nodes, ids := nodes0, ids0;
    for i := 0 to |spans|
      invariant Numbered(net, nodes, ids)
      invariant ids0.Keys <= ids.Keys && forall j: nat :: j < i ==> (spans[j].peer, b) in ids.Keys
    {
      assert HostsBy(net, spans[i], b, spans[i].peer);
      nodes, ids := NumberNode(net, nodes, ids, b, spans[i]);
    }
  }

  method NumberNodes(net: Network, containing: seq<seq<Span>>) returns (nodes: seq<Vertex>, ids: Ids)
    requires |containing| == net.numBlocks
    requires forall b: nat :: b < net.numBlocks ==> containing[b] == Covering(net.spans, b)
    ensures Numbered(net, nodes, ids) && AllNumbered(net, ids)
  {
    ids := map[];
    nodes := [Source, Sink];
    for b := 0 to |containing|
      invariant Numbered(net, nodes, ids)
      invariant forall c: nat :: c < b ==> SpansNumbered(containing[c], c, ids)
    {
      nodes, ids := NumberBlock(net, nodes, ids, b, containing[b]);
    }
    forall p: PeerId, b: nat | b < net.numBlocks && Hosts(net, b, p) ensures (p, b) in ids {
      var s :| HostsBy(net, s, b, p);
      assert s in containing[b] && SpansNumbered(containing[b], b, ids);
    }
  }

  /** The source is joined to every span at the first block, and every span at the last block to
      the sink. */
  ghost predicate EntriesAdded(net: Network, ids: Ids, adj: Graph) {
    forall s :: s in Covering(net.spans, 0) ==>
      (s.peer, 0) in ids && HasEdge(adj, START_NODE, Edge(ids[(s.peer, 0)], EntryDelay(net, s.peer)))
  }

  ghost predicate ExitsAdded(net: Network, ids: Ids, adj: Graph)
    requires net.numBlocks > 0
  {
    var last := net.numBlocks - 1;
    forall s :: s in Covering(net.spans, last) ==>
      (s.peer, last) in ids && HasEdge(adj, ids[(s.peer, last)], Edge(END_NODE, ExitDelay(net, s.peer)))
  }

  lemma ExitsStay(net: Network, ids: Ids, adj: Graph, adj': Graph)
    requires net.numBlocks > 0 && ExitsAdded(net, ids, adj) && Grows(adj, adj')
    ensures ExitsAdded(net, ids, adj')
  {
  }

  method AddEntryArcs(net: Network, containing: seq<seq<Span>>, nodes: seq<Vertex>, ids: Ids, adj0: Graph)
    returns (adj: Graph)
    requires |containing| == net.numBlocks > 0 && containing[0] == Covering(net.spans, 0)
    requires Numbered(net, nodes, ids) && AllNumbered(net, ids) && Sound(net, nodes, adj0)
    ensures Sound(net, nodes, adj) && Grows(adj0, adj)
    ensures EntriesAdded(net, ids, adj)
  {
    hide Numbered, AllNumbered, Arc;
    adj := adj0;
    var spans := containing[0];
    for i := 0 to |spans|
      invariant Sound(net, nodes, adj) && Grows(adj0, adj)
      invariant forall j :: 0 <= j < i ==>
                  && (spans[j].peer, 0) in ids
                  && HasEdge(adj, START_NODE, Edge(ids[(spans[j].peer, 0)], EntryDelay(net, spans[j].peer)))
    {
      var span := spans[i];
      EntryIsArc(net, nodes, ids, span);
      adj := Push(adj, START_NODE, Edge(ids[(span.peer, 0)], EntryDelay(net, span.peer)));
    }
  }

  method AddExitArcs(net: Network, containing: seq<seq<Span>>, nodes: seq<Vertex>, ids: Ids, adj0: Graph)
    returns (adj: Graph)
    requires |containing| == net.numBlocks > 0
    requires containing[net.numBlocks - 1] == Covering(net.spans, net.numBlocks - 1)
    requires Numbered(net, nodes, ids) && AllNumbered(net, ids) && Sound(net, nodes, adj0)
    ensures Sound(net, nodes, adj) && Grows(adj0, adj)
    ensures ExitsAdded(net, ids, adj)
  {
    hide Numbered, AllNumbered, Arc;
    adj := adj0;
    var last := net.numBlocks - 1;
    var spans := containing[last];
    for i := 0 to |spans|
      invariant Sound(net, nodes, adj) && Grows(adj0, adj)
      invariant forall j :: 0 <= j < i ==>
                  && (spans[j].peer, last) in ids
                  && HasEdge(adj, ids[(spans[j].peer, last)], Edge(END_NODE, ExitDelay(net, spans[j].peer)))
    {
      var span := spans[i];
      ExitIsArc(net, nodes, ids, span);
      adj := Push(adj, ids[(span.peer, last)], Edge(END_NODE, ExitDelay(net, span.peer)));
    }
  }

  lemma ExitIsArc(net: Network, nodes: seq<Vertex>, ids: Ids, span: Span)
    requires net.numBlocks > 0 && Numbered(net, nodes, ids) && AllNumbered(net, ids)
    requires HostsBy(net, span, net.numBlocks - 1, span.peer)
    ensures (span.peer, net.numBlocks - 1) in ids && END_NODE < |nodes|
    ensures var from := ids[(span.peer, net.numBlocks - 1)];
            from < |nodes| && Arc(net, nodes[from], nodes[END_NODE], ExitDelay(net, span.peer))
  {
  }

  lemma EntryIsArc(net: Network, nodes: seq<Vertex>, ids: Ids, span: Span)
    requires net.numBlocks > 0 && Numbered(net, nodes, ids) && AllNumbered(net, ids)
    requires HostsBy(net, span, 0, span.peer)
    ensures (span.peer, 0) in ids && START_NODE < |nodes|
    ensures var to := ids[(span.peer, 0)];
            to < |nodes| && Arc(net, nodes[START_NODE], nodes[to], EntryDelay(net, span.peer))
  {
  }

  /** All the hops that the span `s` offers out of block `b` are edges. */
  ghost predicate HopsAdded(net: Network, ids: Ids, s: Span, b: nat, adj: Graph) {
    forall q: PeerId, delay :: HopBy(net, s, b, s.peer, q, delay) ==>
      && (s.peer, b) in ids && (q, b + 1) in ids
      && HasEdge(adj, ids[(s.peer, b)], Edge(ids[(q, b + 1)], delay))
  }

  /** `span`, which ends after block `b`, hands over to every span in `spans`. */
  ghost predicate HandsOver(net: Network, ids: Ids, spans: seq<Span>, b: nat, span: Span, adj: Graph) {
    forall t :: t in spans ==>
      && (span.peer, b) in ids && (t.peer, b + 1) in ids
      && HasEdge(adj, ids[(span.peer, b)], Edge(ids[(t.peer, b + 1)], HandoffDelay(net, span, t.peer)))
  }

  lemma HandoffIsArc(net: Network, nodes: seq<Vertex>, ids: Ids, b: nat, span: Span, next: Span)
    requires b + 1 == span.end < net.numBlocks && HostsBy(net, span, b, span.peer) && ValidSpan(net, span)
    requires HostsBy(net, next, b + 1, next.peer) && Numbered(net, nodes, ids) && AllNumbered(net, ids)
    ensures (span.peer, b) in ids && (next.peer, b + 1) in ids
    ensures ids[(span.peer, b)] < |nodes| && ids[(next.peer, b + 1)] < |nodes|
    ensures Arc(net, nodes[ids[(span.peer, b)]], nodes[ids[(next.peer, b + 1)]], HandoffDelay(net, span, next.peer))
  {
    assert HopBy(net, span, b, span.peer, next.peer, HandoffDelay(net, span, next.peer));
  }

  method AddHandoffs(net: Network, after: seq<Span>, nodes: seq<Vertex>, ids: Ids, b: nat, span: Span, adj0: Graph)
    returns (adj: Graph)
    requires b + 1 == span.end < net.numBlocks && HostsBy(net, span, b, span.peer) && ValidSpan(net, span)
    requires after == Covering(net.spans, b + 1)
    requires Numbered(net, nodes, ids) && AllNumbered(net, ids) && Sound(net, nodes, adj0)
    ensures Sound(net, nodes, adj) && Grows(adj0, adj) && HandsOver(net, ids, after, b, span, adj)
  {
    hide Numbered, AllNumbered, Arc;
    adj := adj0;
    for i := 0 to |after|
      invariant Sound(net, nodes, adj) && Grows(adj0, adj) && HandsOver(net, ids, after[..i], b, span, adj)
    {
      var next := after[i];
      HandoffIsArc(net, nodes, ids, b, span, next);
      adj := Push(adj, ids[(span.peer, b)], Edge(ids[(next.peer, b + 1)], HandoffDelay(net, span, next.peer)));
      assert after[..i + 1] == after[..i] + [next];
    }
    assert after[..|after|] == after;
  }

  /** The body of the loop over the spans of a block. */
  method AddHopArcs(net: Network, containing: seq<seq<Span>>, nodes: seq<Vertex>, ids: Ids,
                    b: nat, span: Span, adj0: Graph)
    returns (adj: Graph)
    requires Valid(net) && |containing| == net.numBlocks && b < net.numBlocks
    requires forall c: nat :: c < net.numBlocks ==> containing[c] == Covering(net.spans, c)
    requires span in containing[b]
    requires Numbered(net, nodes, ids) && AllNumbered(net, ids) && Sound(net, nodes, adj0)
    ensures Sound(net, nodes, adj) && Grows(adj0, adj) && HopsAdded(net, ids, span, b, adj)
  {
    hide Numbered, AllNumbered, Arc, HopsAdded, HandsOver;
    adj := adj0;
    assert HostsBy(net, span, b, span.peer) && ValidSpan(net, span);
    if b + 1 < span.end {
      StayIsArc(net, nodes, ids, b, span);
      var from, to := ids[(span.peer, b)], ids[(span.peer, b + 1)];
      adj := Push(adj, from, Edge(to, StayDelay(span)));
    }
    if b + 1 < net.numBlocks && span.end == b + 1 {
      adj := AddHandoffs(net, containing[b + 1], nodes, ids, b, span, adj);
    }
    AllHopsOf(net, ids, b, span, adj);
  }

  /** A span that goes on past block `b` has its edge to the next block. */
  ghost predicate GoesOn(ids: Ids, b: nat, span: Span, adj: Graph)
    requires span.info.inferenceRps.Some? ==> span.info.inferenceRps.value > 0.0
  {
    && (span.peer, b) in ids && (span.peer, b + 1) in ids
    && HasEdge(adj, ids[(span.peer, b)], Edge(ids[(span.peer, b + 1)], StayDelay(span)))
  }

  /** Going on and handing over are all the hops that a span offers. */
  lemma AllHopsOf(net: Network, ids: Ids, b: nat, span: Span, adj: Graph)
    requires ValidSpan(net, span) && b < net.numBlocks
    requires b + 1 < span.end ==> GoesOn(ids, b, span, adj)
    requires b + 1 == span.end < net.numBlocks ==> HandsOver(net, ids, Covering(net.spans, b + 1), b, span, adj)
    ensures HopsAdded(net, ids, span, b, adj)
  {
    forall q: PeerId, delay | HopBy(net, span, b, span.peer, q, delay)
      ensures (span.peer, b) in ids && (q, b + 1) in ids
      ensures HasEdge(adj, ids[(span.peer, b)], Edge(ids[(q, b + 1)], delay))
    {
      if span.end == b + 1 {
        var t :| HostsBy(net, t, b + 1, q);
        assert t in Covering(net.spans, b + 1);
      }
    }
  }

  lemma StayIsArc(net: Network, nodes: seq<Vertex>, ids: Ids, b: nat, span: Span)
    requires Numbered(net, nodes, ids) && AllNumbered(net, ids)
    requires HostsBy(net, span, b, span.peer) && ValidSpan(net, span) && b + 1 < span.end <= net.numBlocks
    ensures (span.peer, b) in ids && (span.peer, b + 1) in ids
    ensures ids[(span.peer, b)] < |nodes| && ids[(span.peer, b + 1)] < |nodes|
    ensures Arc(net, nodes[ids[(span.peer, b)]], nodes[ids[(span.peer, b + 1)]], StayDelay(span))
  {
    assert HostsBy(net, span, b + 1, span.peer);
    assert HopBy(net, span, b, span.peer, span.peer, StayDelay(span));
  }

  method BuildGraph(net: Network, containing: seq<seq<Span>>) returns (nodes: seq<Vertex>, ids: Ids, adj: Graph)
    requires Valid(net) && |containing| == net.numBlocks > 0
    requires forall b: nat :: b < net.numBlocks ==> containing[b] == Covering(net.spans, b)
    ensures Numbered(net, nodes, ids) && AllNumbered(net, ids)
    ensures Sound(net, nodes, adj) && Complete(net, nodes, adj)
  {
    nodes, ids := NumberNodes(net, containing);
    adj := seq(|nodes|, _ => []);
    adj := AddEntryArcs(net, containing, nodes, ids, adj);
    ghost var adj1 := adj;
    adj := AddExitArcs(net, containing, nodes, ids, adj);
    ghost var adj2 := adj;
    for b := 0 to net.numBlocks
      invariant Sound(net, nodes, adj) && Grows(adj2, adj)
      invariant AllHopsAdded(net, ids, b, adj)
    {
      hide Numbered, AllNumbered, Sound, BlockHopsAdded, AllHopsAdded;
      ghost var before := adj;
      adj := AddBlockHops(net, containing, nodes, ids, b, adj);
      BlocksStay(net, ids, b, before, adj);
    }
    ExitsStay(net, ids, adj2, adj);
    ArcsAreEdges(net, nodes, ids, adj1, adj);
  }

  /** The hops out of the first `k` blocks are edges. */
  ghost predicate AllHopsAdded(net: Network, ids: Ids, k: nat, adj: Graph) {
    forall c: nat :: c < k ==> BlockHopsAdded(net, ids, Covering(net.spans, c), c, adj)
  }

  ghost predicate BlockHopsAdded(net: Network, ids: Ids, spans: seq<Span>, b: nat, adj: Graph) {
    forall s :: s in spans ==> HopsAdded(net, ids, s, b, adj)
  }

  /** The loop over the spans at block `b`. */
  method AddBlockHops(net: Network, containing: seq<seq<Span>>, nodes: seq<Vertex>, ids: Ids, b: nat, adj0: Graph)
    returns (adj: Graph)
    requires Valid(net) && |containing| == net.numBlocks && b < net.numBlocks
    requires forall c: nat :: c < net.numBlocks ==> containing[c] == Covering(net.spans, c)
    requires Numbered(net, nodes, ids) && AllNumbered(net, ids) && Sound(net, nodes, adj0)
    ensures Sound(net, nodes, adj) && Grows(adj0, adj)
    ensures BlockHopsAdded(net, ids, Covering(net.spans, b), b, adj)
  {
    adj := adj0;
    for i := 0 to |containing[b]|
      invariant Sound(net, nodes, adj) && Grows(adj0, adj)
      invariant BlockHopsAdded(net, ids, containing[b][..i], b, adj)
    {
      var span := containing[b][i];
      ghost var before := adj;
      adj := AddHopArcs(net, containing, nodes, ids, b, span, adj);
      HopsStay(net, ids, before, adj);
      assert containing[b][..i + 1] == containing[b][..i] + [span];
    }
    assert containing[b][..|containing[b]|] == containing[b];
  }

  lemma BlocksStay(net: Network, ids: Ids, b: nat, adj: Graph, adj': Graph)
    requires Grows(adj, adj') && AllHopsAdded(net, ids, b, adj)
    requires BlockHopsAdded(net, ids, Covering(net.spans, b), b, adj')
    ensures AllHopsAdded(net, ids, b + 1, adj')
  {
    hide Grows, HopsAdded;
    HopsStay(net, ids, adj, adj');
  }

  lemma HopsStay(net: Network, ids: Ids, adj: Graph, adj': Graph)
    requires Grows(adj, adj')
    ensures forall s, b: nat :: HopsAdded(net, ids, s, b, adj) ==> HopsAdded(net, ids, s, b, adj')
  {
  }

  lemma NumbersAreUnique(net: Network, nodes: seq<Vertex>, ids: Ids, u: nat)
    requires Numbered(net, nodes, ids) && u < |nodes|
    ensures nodes[u].Source? <==> u == START_NODE
    ensures nodes[u].Sink? <==> u == END_NODE
    ensures nodes[u].At? ==> (nodes[u].peer, nodes[u].block) in ids && ids[(nodes[u].peer, nodes[u].block)] == u
  {
  }

  lemma HopArcIsEdge(net: Network, ids: Ids, p: PeerId, b: nat, q: PeerId, delay: real, adj: Graph)
    requires b < net.numBlocks && Hop(net, b, p, q, delay)
    requires AllHopsAdded(net, ids, net.numBlocks, adj)
    ensures (p, b) in ids && (q, b + 1) in ids && HasEdge(adj, ids[(p, b)], Edge(ids[(q, b + 1)], delay))
  {
    var s :| HopBy(net, s, b, p, q, delay);
    assert s in Covering(net.spans, b);
  }

  lemma EntryIsEdge(net: Network, ids: Ids, p: PeerId, adj1: Graph, adj: Graph)
    requires net.numBlocks > 0 && Hosts(net, 0, p) && Grows(adj1, adj)
    requires EntriesAdded(net, ids, adj1)
    ensures (p, 0) in ids && HasEdge(adj, START_NODE, Edge(ids[(p, 0)], EntryDelay(net, p)))
  {
    var s :| HostsBy(net, s, 0, p);
    assert s in Covering(net.spans, 0);
    assert HasEdge(adj1, START_NODE, Edge(ids[(p, 0)], EntryDelay(net, p)));
  }

  lemma ExitIsEdge(net: Network, ids: Ids, p: PeerId, adj: Graph)
    requires net.numBlocks > 0 && Hosts(net, net.numBlocks - 1, p)
    requires ExitsAdded(net, ids, adj)
    ensures (p, net.numBlocks - 1) in ids
    ensures HasEdge(adj, ids[(p, net.numBlocks - 1)], Edge(END_NODE, ExitDelay(net, p)))
  {
    var s :| HostsBy(net, s, net.numBlocks - 1, p);
    assert s in Covering(net.spans, net.numBlocks - 1);
  }

  lemma ArcIsEdge(net: Network, nodes: seq<Vertex>, ids: Ids, adj1: Graph, adj: Graph, u: nat, v: nat, delay: real)
    requires net.numBlocks > 0 && Numbered(net, nodes, ids) && Grows(adj1, adj)
    requires EntriesAdded(net, ids, adj1) && ExitsAdded(net, ids, adj) && AllHopsAdded(net, ids, net.numBlocks, adj)
    requires u < |nodes| && v < |nodes| && Arc(net, nodes[u], nodes[v], delay)
    ensures HasEdge(adj, u, Edge(v, delay))
  {
    hide Numbered, Grows, Hosts, Hop, HasEdge, EntriesAdded, ExitsAdded, AllHopsAdded, EntryDelay, ExitDelay;
    NumbersAreUnique(net, nodes, ids, u);
    NumbersAreUnique(net, nodes, ids, v);
    match nodes[u]
    case Source => EntryIsEdge(net, ids, nodes[v].peer, adj1, adj);
    case At(p, b) =>
      if nodes[v].Sink? {
        ExitIsEdge(net, ids, p, adj);
      } else {
        HopArcIsEdge(net, ids, p, b, nodes[v].peer, delay, adj);
      }
  }

  lemma ArcsAreEdges(net: Network, nodes: seq<Vertex>, ids: Ids, adj1: Graph, adj: Graph)
    requires net.numBlocks > 0 && Numbered(net, nodes, ids) && Grows(adj1, adj)
    requires EntriesAdded(net, ids, adj1) && ExitsAdded(net, ids, adj) && AllHopsAdded(net, ids, net.numBlocks, adj)
    ensures Complete(net, nodes, adj)
  {
    hide Numbered, Grows, Arc, HasEdge, EntriesAdded, ExitsAdded, AllHopsAdded;
    forall u: nat, v: nat, delay | u < |nodes| && v < |nodes| && Arc(net, nodes[u], nodes[v], delay)
      ensures HasEdge(adj, u, Edge(v, delay))
    {
      ArcIsEdge(net, nodes, ids, adj1, adj, u, v, delay);
    }
  }

  // ---------------------------------------------------------------- paths and itineraries

  ghost function Layer(net: Network, v: Vertex): nat {
    match v
    case Source => 0
    case At(_, b) => b + 1
    case Sink => net.numBlocks + 1
  }

  ghost function Layers(net: Network, nodes: seq<Vertex>): seq<nat> {
    seq(|nodes|, u requires 0 <= u < |nodes| => Layer(net, nodes[u]))
  }

  lemma GraphIsLayered(net: Network, nodes: seq<Vertex>, adj: Graph)
    requires Valid(net) && Sound(net, nodes, adj)
    ensures Layered(adj, Layers(net, nodes))
  {
    var layer := Layers(net, nodes);
    forall u: nat, i: nat | u < |adj| && i < |adj[u]| ensures LayeredEdge(adj, layer, u, adj[u][i]) {
      var e := adj[u][i];
      assert HasEdge(adj, u, e);
      if nodes[u].At? && nodes[e.to].At? {
        HopEnds(net, nodes[u].block, nodes[u].peer, nodes[e.to].peer, e.weight);
      }
    }
  }

  ghost function Weights(path: seq<Edge>): (r: seq<real>)
    ensures |r| == |path|
  {
    if path == [] then [] else [path[0].weight] + Weights(path[1..])
  }

  lemma {:induction false} WeightsTotal(path: seq<Edge>)
    ensures Total(Weights(path)) == Latency(path) && TotalNanos(Weights(path)) == Nanos(path)
  {
    if path != [] {
      WeightsTotal(path[1..]);
      assert Weights(path)[1..] == Weights(path[1..]);
    }
  }

  /** An edge from a (peer, block) node leads to the sink or to a node for the next block. */
  lemma NextNode(net: Network, nodes: seq<Vertex>, ids: Ids, adj: Graph, u: nat, e: Edge)
    requires Numbered(net, nodes, ids) && Sound(net, nodes, adj)
    requires u < |nodes| && nodes[u].At? && e in adj[u]
    ensures nodes[u].block < net.numBlocks && Hosts(net, nodes[u].block, nodes[u].peer) && e.to < |nodes|
    ensures e.to == END_NODE ==> nodes[u].block + 1 == net.numBlocks && e.weight == ExitDelay(net, nodes[u].peer)
    ensures e.to != END_NODE ==>
              && nodes[e.to].At? && nodes[e.to].block == nodes[u].block + 1 < net.numBlocks
              && Hop(net, nodes[u].block, nodes[u].peer, nodes[e.to].peer, e.weight)
  {
    assert HasEdge(adj, u, e);
    NumbersAreUnique(net, nodes, ids, u);
    NumbersAreUnique(net, nodes, ids, e.to);
  }

  lemma SinkIsFinal(net: Network, nodes: seq<Vertex>, ids: Ids, adj: Graph, path: seq<Edge>)
    requires Numbered(net, nodes, ids) && Sound(net, nodes, adj) && IsPath(adj, END_NODE, path, END_NODE)
    ensures path == []
  {
    if path != [] {
      assert HasEdge(adj, END_NODE, path[0]);
    }
  }

  /** The path visits `peers` from block `b` on, one block an edge, before its last edge. */
  ghost predicate Visits(nodes: seq<Vertex>, path: seq<Edge>, peers: seq<PeerId>, b: nat) {
    |peers| == |path| && forall i: nat :: i + 1 < |path| ==>
      path[i].to < |nodes| && nodes[path[i].to] == At(peers[i + 1], b + i + 1)
  }

  lemma VisitsOnward(nodes: seq<Vertex>, e: Edge, rest: seq<Edge>, p: PeerId, peers: seq<PeerId>, b: nat)
    requires Visits(nodes, rest, peers, b + 1) && peers != [] && e.to < |nodes| && nodes[e.to] == At(peers[0], b + 1)
    ensures Visits(nodes, [e] + rest, [p] + peers, b)
  {
    var path := [e] + rest;
    forall i: nat | 0 < i < |rest| ensures path[i].to < |nodes| && nodes[path[i].to] == At(([p] + peers)[i + 1], b + i + 1) {
      assert path[i] == rest[i - 1];
    }
  }

  /** From a (peer, block) node, a path to the sink is an onward journey: one node a block. */
  lemma {:induction false} PathIsJourney(net: Network, nodes: seq<Vertex>, ids: Ids, adj: Graph, u: nat,
                                         path: seq<Edge>)
    returns (peers: seq<PeerId>)
    requires Numbered(net, nodes, ids) && Sound(net, nodes, adj)
    requires u < |nodes| && nodes[u].At? && IsPath(adj, u, path, END_NODE)
    ensures Onward(net, nodes[u].block, peers, Weights(path)) && peers[0] == nodes[u].peer
    ensures Visits(nodes, path, peers, nodes[u].block)
    ensures path[|path| - 1].to == END_NODE
    decreases path
  {
    hide Numbered, Sound, Hop, Hosts, Arc, HasEdge, EntryDelay, ExitDelay, Onward, Weights, Visits, IsPath;
    NumbersAreUnique(net, nodes, ids, u);
    SameSize(net, nodes, ids, adj);
    FirstEdge(adj, u, path);
    var e, rest, p, b := path[0], path[1..], nodes[u].peer, nodes[u].block;
    NextNode(net, nodes, ids, adj, u, e);
    assert path == [e] + rest;
    if e.to == END_NODE {
      SinkIsFinal(net, nodes, ids, adj, rest);
      assert path == [e];
      peers := [p];
      LastHop(net, nodes, b, p, e);
    } else {
      var ps := PathIsJourney(net, nodes, ids, adj, e.to, rest);
      peers := [p] + ps;
      OneMoreHop(net, b, p, ps, e, rest);
      VisitsOnward(nodes, e, rest, p, ps, b);
    }
  }

  lemma SameSize(net: Network, nodes: seq<Vertex>, ids: Ids, adj: Graph)
    requires Numbered(net, nodes, ids) && Sound(net, nodes, adj)
    ensures |adj| == |nodes| >= 2
  {
  }

  lemma FirstEdge(adj: Graph, u: nat, path: seq<Edge>)
    requires u < |adj| && u != END_NODE && END_NODE < |adj| && IsPath(adj, u, path, END_NODE)
    ensures path != [] && path[0] in adj[u] && path[0].to < |adj| && IsPath(adj, path[0].to, path[1..], END_NODE)
  {
  }

  lemma LastHop(net: Network, nodes: seq<Vertex>, b: nat, p: PeerId, e: Edge)
    requires b + 1 == net.numBlocks && Hosts(net, b, p) && e.weight == ExitDelay(net, p)
    ensures Onward(net, b, [p], Weights([e])) && Visits(nodes, [e], [p], b)
  {
  }

  lemma OneMoreHop(net: Network, b: nat, p: PeerId, peers: seq<PeerId>, e: Edge, rest: seq<Edge>)
    requires b + 1 < net.numBlocks && Hosts(net, b, p)
    requires Onward(net, b + 1, peers, Weights(rest)) && Hop(net, b, p, peers[0], e.weight)
    ensures Onward(net, b, [p] + peers, Weights([e] + rest)) && |peers| > 0 && rest != []
  {
    hide Hop, Hosts;
    var path := [e] + rest;
    assert path[1..] == rest && Weights(path) == [e.weight] + Weights(rest);
    assert Weights(path)[1..] == Weights(rest) && ([p] + peers)[1..] == peers;
  }

  lemma {:induction false} JourneyIsPath(net: Network, nodes: seq<Vertex>, ids: Ids, adj: Graph, b: nat,
                                         peers: seq<PeerId>, delays: seq<real>)
    returns (path: seq<Edge>)
    requires Numbered(net, nodes, ids) && AllNumbered(net, ids) && |adj| == |nodes| && Complete(net, nodes, adj)
    requires Onward(net, b, peers, delays)
    ensures (peers[0], b) in ids && IsPath(adj, ids[(peers[0], b)], path, END_NODE) && Weights(path) == delays
    decreases peers
  {
    var u := ids[(peers[0], b)];
    if b + 1 == net.numBlocks {
      assert Arc(net, nodes[u], nodes[END_NODE], delays[0]);
      path := [Edge(END_NODE, delays[0])];
      assert HasEdge(adj, u, path[0]);
    } else {
      var rest := JourneyIsPath(net, nodes, ids, adj, b + 1, peers[1..], delays[1..]);
      var v := ids[(peers[1], b + 1)];
      assert Arc(net, nodes[u], nodes[v], delays[0]);
      assert HasEdge(adj, u, Edge(v, delays[0]));
      path := [Edge(v, delays[0])] + rest;
      assert path[1..] == rest;
    }
  }

  /** Every path from source to sink is an itinerary of the same delays. */
  lemma PathIsItinerary(net: Network, nodes: seq<Vertex>, ids: Ids, adj: Graph, path: seq<Edge>)
    returns (it: Itinerary)
    requires Numbered(net, nodes, ids) && Sound(net, nodes, adj) && IsPath(adj, START_NODE, path, END_NODE)
    ensures Feasible(net, it) && it.delays == Weights(path)
    ensures forall i: nat :: i < net.numBlocks ==> path[i].to < |nodes| && nodes[path[i].to] == At(it.peers[i], i)
    ensures path[net.numBlocks].to == END_NODE
  {
    var e := path[0];
    assert HasEdge(adj, START_NODE, e);
    assert IsPath(adj, e.to, path[1..], END_NODE);
    var peers := PathIsJourney(net, nodes, ids, adj, e.to, path[1..]);
    it := Itinerary(peers, Weights(path));
    assert it.delays[1..] == Weights(path[1..]);
    forall i: nat | i < net.numBlocks ensures path[i].to < |nodes| && nodes[path[i].to] == At(it.peers[i], i) {
      if i > 0 {
        assert path[i] == path[1..][i - 1];
      }
    }
    assert path[net.numBlocks] == path[1..][net.numBlocks - 1];
  }

  /** Every itinerary is a path from source to sink of the same delays. */
  lemma ItineraryIsPath(net: Network, nodes: seq<Vertex>, ids: Ids, adj: Graph, it: Itinerary)
    returns (path: seq<Edge>)
    requires Numbered(net, nodes, ids) && AllNumbered(net, ids) && |adj| == |nodes| && Complete(net, nodes, adj)
    requires Feasible(net, it)
    ensures IsPath(adj, START_NODE, path, END_NODE) && Weights(path) == it.delays
  {
    var rest := JourneyIsPath(net, nodes, ids, adj, 0, it.peers, it.delays[1..]);
    var v := ids[(it.peers[0], 0)];
    assert Arc(net, nodes[START_NODE], nodes[v], it.delays[0]);
    assert HasEdge(adj, START_NODE, Edge(v, it.delays[0]));
    path := [Edge(v, it.delays[0])] + rest;
    assert path[1..] == rest;
  }
}
