/**
 The minimum-latency planner: search, path reconstruction and the theorems about its result.
 */
module Planner {
  import opened Common
  import opened ServerTypes
  import opened SpanTable
  import opened ShortestPath
  import opened Itineraries
  import opened PlannerGraph

  // ---------------------------------------------------------------- routes

  /** The pieces of a route cover `lo..hi` in order, without gap or overlap, and none is empty. */
  ghost predicate Tiles(route: seq<Span>, lo: nat, hi: nat) {
    if route == [] then lo == hi
    else
      var s := route[|route| - 1];
      s.end == hi && s.start < s.end && Tiles(route[..|route| - 1], lo, s.start)
  }

  /** The first span of a peer in a list. */
  function FindPeer(spans: seq<Span>, p: PeerId): (r: Option<Span>)
    ensures r.None? ==> forall s :: s in spans ==> s.peer != p
    ensures r.Some? ==> r.value in spans && r.value.peer == p
  {
    if spans == [] then None
    else if spans[0].peer == p then Some(spans[0])
    else FindPeer(spans[1..], p)
  }

  /** A piece of a route stands for a run of blocks with the same peer, and carries the
      announcement of that peer's first span over the run's first block. */
  ghost predicate IsRun(net: Network, peers: seq<PeerId>, piece: Span) {
    && piece.start < piece.end <= |peers|
    && (forall b :: piece.start <= b < piece.end ==> peers[b] == piece.peer)
    && FindPeer(Covering(net.spans, piece.start), piece.peer).Some?
    && piece.info == FindPeer(Covering(net.spans, piece.start), piece.peer).value.info
  }

  /** The route lists the maximal runs of `peers`. */
  ghost predicate GroupsRuns(net: Network, peers: seq<PeerId>, route: seq<Span>) {
    && Tiles(route, 0, |peers|)
    && (forall s :: s in route ==> IsRun(net, peers, s))
    && forall i :: 0 < i < |route| ==> route[i - 1].peer != route[i].peer
  }

  /** `Vec::retain` with the predicate of the planner. */
  function RetainNonEmpty(route: seq<Span>): (r: seq<Span>)
    ensures (forall s :: s in route ==> s.start < s.end) ==> r == route
  {
    if route == [] then []
    else
      var rest := RetainNonEmpty(route[1..]);
      if route[0].end - route[0].start > 0 then [route[0]] + rest else rest
  }

  lemma RunExtends(net: Network, peers: seq<PeerId>, more: seq<PeerId>, piece: Span)
    requires IsRun(net, peers, piece)
    ensures IsRun(net, peers + more, piece)
  {
  }

  /** Grouping the nodes of the path into pieces. */
  method CollectRoute(net: Network, containing: seq<seq<Span>>, nodes: seq<Vertex>, pathNodes: seq<nat>,
                      ghost peers: seq<PeerId>)
    returns (route: seq<Span>)
    requires |containing| == net.numBlocks == |peers| && |pathNodes| == net.numBlocks + 1
    requires forall b: nat :: b < net.numBlocks ==> containing[b] == Covering(net.spans, b)
    requires forall b: nat :: b < net.numBlocks ==>
               pathNodes[b] < |nodes| && pathNodes[b] != END_NODE && nodes[pathNodes[b]] == At(peers[b], b)
    requires pathNodes[net.numBlocks] == END_NODE
    requires forall b: nat :: b < net.numBlocks ==> Hosts(net, b, peers[b])
    ensures GroupsRuns(net, peers, route)
  {
    route := [];
    var i := 0;
    while i < |pathNodes|
      invariant i <= net.numBlocks
      invariant GroupsRuns(net, peers[..i], route)
      invariant route == [] <==> i == 0
      decreases |pathNodes| - i
    {
      var n := pathNodes[i];
      if n == END_NODE {
        break;
      }
      var peer, block := nodes[n].peer, nodes[n].block;
      assert peers[..i + 1] == peers[..i] + [peer];
      route := AddBlock(net, containing, route, peer, block, peers[..i]);
      i := i + 1;
    }
    assert peers[..net.numBlocks] == peers;
  }

  /** The body of the grouping loop. */
  method AddBlock(net: Network, containing: seq<seq<Span>>, route0: seq<Span>, peer: PeerId, block: nat,
                  ghost before: seq<PeerId>)
    returns (route: seq<Span>)
    requires |containing| == net.numBlocks && block < net.numBlocks && |before| == block
    requires containing[block] == Covering(net.spans, block)
    requires Hosts(net, block, peer)
    requires GroupsRuns(net, before, route0) && (route0 == [] <==> block == 0)
    ensures GroupsRuns(net, before + [peer], route) && route != []
  {
    route := route0;
    forall s | s in route0 ensures IsRun(net, before + [peer], s) {
      RunExtends(net, before, [peer], s);
    }
    if route == [] || route[|route| - 1].peer != peer {
      var found := FindPeer(containing[block], peer);
      assert found.Some? by {
        var s :| HostsBy(net, s, block, peer);
        assert s in Covering(net.spans, block);
      }
      var info := if found.Some? then found.value.info else ServerInfo(Online, 0.0, None, None, None, None);
      route := route + [Span(peer, block, block + 1, info)];
      assert route[..|route| - 1] == route0;
    } else {
      var last := |route| - 1;
      route := route[last := route[last].(end := block + 1)];
      assert route[..last] == route0[..last];
      assert IsRun(net, before, route0[last]);
      assert IsRun(net, before + [peer], route[last]);
      forall s | s in route ensures IsRun(net, before + [peer], s) {
        assert s == route[last] || s in route0;
      }
    }
  }

  // ---------------------------------------------------------------- the planner

  /** `it` costs no more truncated nanoseconds than `other`, and so its latency is less than
      the other's plus a nanosecond a hop. */
  ghost predicate NoWorse(net: Network, it: Itinerary, other: Itinerary) {
    && TotalNanos(it.delays) <= TotalNanos(other.delays)
    && LatencyOf(it) * NANOS < LatencyOf(other) * NANOS + (net.numBlocks + 1) as real
  }

  ghost predicate Cheapest(net: Network, it: Itinerary) {
    Feasible(net, it) && forall other :: Feasible(net, other) ==> NoWorse(net, it, other)
  }

  lemma CompareItinerary(net: Network, nodes: seq<Vertex>, ids: Ids, adj: Graph, path: seq<Edge>,
                         it: Itinerary, other: Itinerary)
    requires Valid(net) && Numbered(net, nodes, ids) && AllNumbered(net, ids)
    requires Sound(net, nodes, adj) && Complete(net, nodes, adj)
    requires IsCheapest(adj, START_NODE, path, END_NODE) && it.delays == Weights(path)
    requires Feasible(net, other)
    ensures NoWorse(net, it, other)
  {
    var layer := Layers(net, nodes);
    GraphIsLayered(net, nodes, adj);
    var path' := ItineraryIsPath(net, nodes, ids, adj, other);
    PathLayers(adj, layer, START_NODE, path, END_NODE);
    PathLayers(adj, layer, START_NODE, path', END_NODE);
    WeightsTotal(path);
    WeightsTotal(path');
  }

  lemma CheapestPathIsCheapest(net: Network, nodes: seq<Vertex>, ids: Ids, adj: Graph, path: seq<Edge>, it: Itinerary)
    requires Valid(net) && Numbered(net, nodes, ids) && AllNumbered(net, ids)
    requires Sound(net, nodes, adj) && Complete(net, nodes, adj)
    requires IsCheapest(adj, START_NODE, path, END_NODE) && Feasible(net, it) && it.delays == Weights(path)
    ensures Cheapest(net, it)
  {
    forall other | Feasible(net, other) ensures NoWorse(net, it, other) {
      CompareItinerary(net, nodes, ids, adj, path, it, other);
    }
  }

  /** The nodes are those of the itinerary's peers, block by block, and then the sink. */
  ghost predicate Enters(net: Network, nodes: seq<Vertex>, pathNodes: seq<nat>, it: Itinerary) {
    && |pathNodes| == net.numBlocks + 1 && pathNodes[net.numBlocks] == END_NODE && |it.peers| == net.numBlocks
    && forall b: nat :: b < net.numBlocks ==>
         pathNodes[b] < |nodes| && pathNodes[b] != END_NODE && nodes[pathNodes[b]] == At(it.peers[b], b)
  }

  lemma CheapestItinerary(net: Network, nodes: seq<Vertex>, ids: Ids, adj: Graph, path: seq<Edge>, pathNodes: seq<nat>)
    returns (it: Itinerary)
    requires Valid(net) && Numbered(net, nodes, ids) && AllNumbered(net, ids)
    requires Sound(net, nodes, adj) && Complete(net, nodes, adj)
    requires IsCheapest(adj, START_NODE, path, END_NODE) && Traces(path, pathNodes)
    ensures Feasible(net, it) && Cheapest(net, it) && Enters(net, nodes, pathNodes, it)
  {
    hide AllNumbered, Sound, Complete, Cheapest;
    it := PathIsItinerary(net, nodes, ids, adj, path);
    CheapestPathIsCheapest(net, nodes, ids, adj, path, it);
  }

  lemma NoPathNoItinerary(net: Network, nodes: seq<Vertex>, ids: Ids, adj: Graph, dist: seq<Dist>)
    requires Numbered(net, nodes, ids) && AllNumbered(net, ids) && |adj| == |nodes| && Complete(net, nodes, adj)
    requires IsLeastDistance(adj, START_NODE, END_NODE, dist) && dist[END_NODE].Infinite?
    ensures forall other :: !Feasible(net, other)
  {
    if other :| Feasible(net, other) {
      var path := ItineraryIsPath(net, nodes, ids, adj, other);
    }
  }

  lemma GraphFitsSearch(net: Network, nodes: seq<Vertex>, ids: Ids, adj: Graph)
    requires Valid(net) && Numbered(net, nodes, ids) && Sound(net, nodes, adj)
    ensures |adj| == |nodes| >= 2 && Layered(adj, Layers(net, nodes))
    ensures forall v: nat :: v < |nodes| ==> Layers(net, nodes)[START_NODE] <= Layers(net, nodes)[v]
  {
    GraphIsLayered(net, nodes, adj);
  }

  /** Building the graph, searching it and following `prev`: the nodes of a cheapest itinerary. */
  method FindPath(net: Network, containing: seq<seq<Span>>)
    returns (found: bool, nodes: seq<Vertex>, pathNodes: seq<nat>, ghost it: Itinerary)
    requires Valid(net) && |containing| == net.numBlocks > 0
    requires forall b: nat :: b < net.numBlocks ==> containing[b] == Covering(net.spans, b)
    ensures !found ==> forall other :: !Feasible(net, other)
    ensures found ==> Cheapest(net, it) && Enters(net, nodes, pathNodes, it)
  {
    it, pathNodes := Itinerary([], []), [];
    var ids, adj;
    nodes, ids, adj := BuildGraph(net, containing);
    hide Numbered, AllNumbered, Sound, Complete, Layers, Layered, Stopped, IsCheapest, Traces, Cheapest, Enters, Feasible;
    GraphFitsSearch(net, nodes, ids, adj);
    ghost var layer := Layers(net, nodes);
    var dist, prev;
    ghost var key, via, todo;
    dist, prev, key, via, todo := Search(adj, START_NODE, END_NODE, layer);
    found := dist[END_NODE].Finite?;
    if !found {
      NoPathNoItinerary(net, nodes, ids, adj, dist);
      return;
    }
    ghost var path;
    pathNodes, path := FollowPrev(adj, layer, START_NODE, END_NODE, dist, key, prev, via, todo);
    it := CheapestItinerary(net, nodes, ids, adj, path, pathNodes);
  }

  lemma CheapestIsHosted(net: Network, it: Itinerary)
    requires Cheapest(net, it)
    ensures Feasible(net, it) && |it.peers| == net.numBlocks && forall b: nat :: b < net.numBlocks ==> Hosts(net, b, it.peers[b])
  {
    forall b: nat | b < net.numBlocks ensures Hosts(net, b, it.peers[b]) {
      OnwardHosts(net, 0, it.peers, it.delays[1..], b);
    }
  }

  lemma RunsAreNotEmpty(net: Network, peers: seq<PeerId>, route: seq<Span>)
    requires GroupsRuns(net, peers, route)
    ensures forall s :: s in route ==> s.start < s.end
  {
    assert forall s :: s in route ==> IsRun(net, peers, s);
  }

  method DijkstraMinLatency(net: Network) returns (route: Option<seq<Span>>, ghost it: Itinerary)
    requires Valid(net)
    ensures route.Some? <==> Covered(net)
    ensures route.Some? ==> Cheapest(net, it) && GroupsRuns(net, it.peers, route.value)
  {
    hide Cheapest, Feasible, NoWorse, Hosts;
    it := Itinerary([], []);
    FeasibleIffCovered(net);
    var containing := SpansContainingBlock(net.spans, net.numBlocks);
    if |containing| == 0 || containing[0] == [] || containing[net.numBlocks - 1] == [] {
      return None, it;
    }
    var found, nodes, pathNodes;
    found, nodes, pathNodes, it := FindPath(net, containing);
    if !found {
      return None, it;
    }
    CheapestIsHosted(net, it);
    var pieces := CollectRoute(net, containing, nodes, pathNodes, it.peers);
    RunsAreNotEmpty(net, it.peers, pieces);
    pieces := RetainNonEmpty(pieces);
    route := Some(pieces);
  }

  // ---------------------------------------------------------------- one span per peer

  /** No peer has two spans, as in the table that `ComputeSpans` returns. */
  ghost predicate DistinctPeers(net: Network) {
    forall s, t :: s in net.spans && t in net.spans && s.peer == t.peer ==> s == t
  }

  /** With one span per peer, a run of a feasible itinerary stays inside its peer's span. */
  lemma {:induction false} RunStaysInSpan(net: Network, it: Itinerary, piece: Span, s: Span, b: nat)
    requires Valid(net) && DistinctPeers(net) && Feasible(net, it) && IsRun(net, it.peers, piece)
    requires HostsBy(net, s, piece.start, piece.peer) && piece.start <= b < piece.end
    ensures s.Contains(b)
  {
    if b > piece.start {
      RunStaysInSpan(net, it, piece, s, b - 1);
      OnwardHosts(net, 0, it.peers, it.delays[1..], b);
      var t :| HostsBy(net, t, b, it.peers[b]);
      assert t == s;
    }
  }

  /** With one span per peer, a piece that ends where its peer changes, or at the last block,
      runs to its span's end. */
  lemma RunEndsWithSpan(net: Network, it: Itinerary, piece: Span) returns (s: Span)
    requires Valid(net) && DistinctPeers(net) && Feasible(net, it) && IsRun(net, it.peers, piece)
    requires piece.end == net.numBlocks || it.peers[piece.end] != piece.peer
    ensures s in net.spans && s.peer == piece.peer && s.info == piece.info
    ensures s.start <= piece.start && piece.end == s.end
  {
    s := FindPeer(Covering(net.spans, piece.start), piece.peer).value;
    assert HostsBy(net, s, piece.start, piece.peer) && ValidSpan(net, s);
    var b := piece.end - 1;
    RunStaysInSpan(net, it, piece, s, b);
    if piece.end < net.numBlocks {
      OnwardHosts(net, 0, it.peers, it.delays[1..], b);
      var t :| HopBy(net, t, b, it.peers[b], it.peers[b + 1], it.delays[1..][b]);
      assert t == s;
    }
  }

  lemma {:induction false} TilesTouch(route: seq<Span>, lo: nat, hi: nat, i: nat)
    requires Tiles(route, lo, hi) && i < |route|
    ensures i == 0 ==> route[i].start == lo
    ensures i + 1 < |route| ==> route[i].end == route[i + 1].start
    ensures i + 1 == |route| ==> route[i].end == hi
  {
    var front := route[..|route| - 1];
    if i + 1 < |route| {
      TilesTouch(front, lo, route[|route| - 1].start, i);
    } else if i > 0 {
      assert front[i - 1] == route[i - 1];
    }
  }

  /** With one span per peer, every piece of the route lies inside its peer's span and runs to
      that span's end. */
  lemma RouteRunsToSpanEnds(net: Network, it: Itinerary, route: seq<Span>, i: nat) returns (s: Span)
    requires Valid(net) && DistinctPeers(net) && Feasible(net, it) && GroupsRuns(net, it.peers, route)
    requires i < |route|
    ensures s in net.spans && s.peer == route[i].peer && s.info == route[i].info
    ensures s.start <= route[i].start && route[i].end == s.end
  {
    TilesTouch(route, 0, net.numBlocks, i);
    if i + 1 < |route| {
      assert IsRun(net, it.peers, route[i + 1]) && route[i].peer != route[i + 1].peer;
    }
    s := RunEndsWithSpan(net, it, route[i]);
  }

  /** The spans that `ComputeSpans` finds meet the planner's demands on spans. */
  lemma ComputedSpansFit(infos: seq<ModuleInfo>, minState: ServerState, net: Network)
    requires net.numBlocks == |infos|
    requires forall s :: s in net.spans ==> SpanOf(infos, minState, s.peer) == Some(s)
    ensures DistinctPeers(net)
    ensures forall s :: s in net.spans ==> s.end <= net.numBlocks
  {
    forall s | s in net.spans ensures s.end <= net.numBlocks {
      SpanEndsWithinBlocks(infos, minState, s.peer);
    }
  }
}
