/** The alternative planner: at each block it takes the first span that contains the block. */
module GreedyPlanner {
  import opened Common
  import opened ServerTypes
  import opened SpanTable
  import opened Itineraries
  import opened Planner
  import opened ShortestPath

  ghost predicate CoveredBetween(spans: seq<Span>, lo: nat, hi: nat) {
    forall b: nat :: lo <= b < hi ==> Covering(spans, b) != []
  }

  ghost predicate Uncovered(spans: seq<Span>, numBlocks: nat, b: nat) {
    b >= numBlocks || Covering(spans, b) == []
  }

  /** A piece goes from where it is needed to the end of the first span there, or to `hi`. */
  ghost predicate FirstChoice(spans: seq<Span>, hi: nat, piece: Span) {
    && Covering(spans, piece.start) != []
    && var chosen := Covering(spans, piece.start)[0];
       piece.peer == chosen.peer && piece.info == chosen.info && piece.end == if chosen.end < hi then chosen.end else hi
  }

  method MakeSequenceMaxThroughput(spans: seq<Span>, numBlocks: nat, startIndex: nat, endIndex: nat)
    returns (route: Option<seq<Span>>)
    ensures endIndex <= numBlocks ==> (route.Some? <==> CoveredBetween(spans, startIndex, endIndex))
    ensures route.Some? && startIndex <= endIndex ==> Tiles(route.value, startIndex, endIndex)
    ensures route.Some? && startIndex > endIndex ==> route.value == []
    ensures route.Some? ==> forall p :: p in route.value ==> FirstChoice(spans, endIndex, p)
    ensures route.None? ==> exists b: nat :: startIndex <= b < endIndex && Uncovered(spans, numBlocks, b)
  {
    var containing := SpansContainingBlock(spans, numBlocks);
    var result: seq<Span> := [];
    var current := startIndex;
    while current < endIndex
      invariant startIndex <= current && (startIndex <= endIndex ==> current <= endIndex)
      invariant startIndex > endIndex ==> result == []
      invariant startIndex <= endIndex ==> Tiles(result, startIndex, current)
      invariant CoveredBetween(spans, startIndex, current)
      invariant forall p :: p in result ==> FirstChoice(spans, endIndex, p)
      decreases endIndex - current
    {
      if current >= |containing| || containing[current] == [] {
        assert Uncovered(spans, numBlocks, current);
        return None;
      }
      var chosen := containing[current][0];
      assert chosen in Covering(spans, current);
      var spanEnd := Min(chosen.end, endIndex);
      var piece := Span(chosen.peer, current, spanEnd, chosen.info);
      forall b: nat | current <= b < spanEnd ensures Covering(spans, b) != [] {
        assert chosen in Covering(spans, b);
      }
      assert (result + [piece])[..|result|] == result;
      result := result + [piece];
      current := spanEnd;
    }
    route := Some(result);
  }

  /** From block `b` on, `peers` serves the blocks of `piece` by the piece's peer. */
  ghost predicate ServesRun(peers: seq<PeerId>, b: nat, piece: Span) {
    forall i :: 0 <= i < |peers| && piece.start <= b + i < piece.end ==> peers[i] == piece.peer
  }

  ghost predicate GreedyRoute(net: Network, route: seq<Span>) {
    Tiles(route, 0, net.numBlocks) && forall p :: p in route ==> FirstChoice(net.spans, net.numBlocks, p)
  }

  /** The hop of a greedy route past block `b`: inside piece `i`, or on to the next piece. */
  lemma GreedyHop(net: Network, route: seq<Span>, i: nat, b: nat) returns (j: nat, delay: real)
    requires Valid(net) && GreedyRoute(net, route)
    requires i < |route| && route[i].start <= b < route[i].end && b < net.numBlocks
    ensures Hosts(net, b, route[i].peer)
    ensures b + 1 < net.numBlocks ==>
              && i <= j <= i + 1 && j < |route| && route[j].start <= b + 1 < route[j].end
              && (j == i <==> b + 1 < route[i].end)
              && Hop(net, b, route[i].peer, route[j].peer, delay)
  {
    assert route[i] in route;
    var s := Covering(net.spans, route[i].start)[0];
    assert s in Covering(net.spans, route[i].start);
    assert HostsBy(net, s, b, s.peer) && ValidSpan(net, s);
    TilesTouch(route, 0, net.numBlocks, i);
    j := if b + 1 < route[i].end then i else i + 1;
    delay := 0.0;
    if b + 1 < net.numBlocks {
      if j > i {
        PiecesAfter(route, 0, net.numBlocks, j);
        assert route[j] in route;
        var t := Covering(net.spans, route[j].start)[0];
        assert t in Covering(net.spans, b + 1);
        assert HostsBy(net, t, b + 1, t.peer);
      }
      delay := if j == i then StayDelay(s) else HandoffDelay(net, s, route[j].peer);
      assert HopBy(net, s, b, s.peer, route[j].peer, delay);
    }
  }

  /** From block `b` of its piece `i`, a greedy route is an onward journey. */
  lemma {:induction false} GreedyJourney(net: Network, route: seq<Span>, i: nat, b: nat)
    returns (peers: seq<PeerId>, delays: seq<real>)
    requires Valid(net) && GreedyRoute(net, route)
    requires i < |route| && route[i].start <= b < route[i].end && b < net.numBlocks
    ensures Onward(net, b, peers, delays) && peers[0] == route[i].peer
    ensures forall k :: i <= k < |route| ==> ServesRun(peers, b, route[k])
    decreases net.numBlocks - b
  {
    var j, delay := GreedyHop(net, route, i, b);
    if b + 1 == net.numBlocks {
      peers, delays := [route[i].peer], [ExitDelay(net, route[i].peer)];
      forall k | i <= k < |route| ensures ServesRun(peers, b, route[k]) {
        if k > i {
          PieceOrder(route, 0, net.numBlocks, i, k);
        }
      }
    } else {
      var ps, ds := GreedyJourney(net, route, j, b + 1);
      peers, delays := [route[i].peer] + ps, [delay] + ds;
      assert peers[1..] == ps && delays[1..] == ds;
      forall k | i <= k < |route| ensures ServesRun(peers, b, route[k]) {
        if k > i {
          PieceOrder(route, 0, net.numBlocks, i, k);
        }
        assert k >= j ==> ServesRun(ps, b + 1, route[k]);
        ServesRunBefore(route[i].peer, ps, b, route[k]);
      }
    }
  }

  lemma ServesRunBefore(p: PeerId, ps: seq<PeerId>, b: nat, piece: Span)
    requires ServesRun(ps, b + 1, piece) || piece.end <= b + 1
    requires piece.start <= b < piece.end ==> piece.peer == p
    ensures ServesRun([p] + ps, b, piece)
  {
    var peers := [p] + ps;
    forall x | 0 <= x < |peers| && piece.start <= b + x < piece.end ensures peers[x] == piece.peer {
      assert x > 0 ==> peers[x] == ps[x - 1];
    }
  }

  lemma {:induction false} PiecesAfter(route: seq<Span>, lo: nat, hi: nat, i: nat)
    requires Tiles(route, lo, hi) && i < |route|
    ensures lo <= route[i].start < route[i].end <= hi
  {
    var front := route[..|route| - 1];
    if i + 1 < |route| {
      PiecesAfter(front, lo, route[|route| - 1].start, i);
    } else if front != [] {
      PiecesAfter(front, lo, route[i].start, |front| - 1);
    }
  }

  lemma {:induction false} PieceOrder(route: seq<Span>, lo: nat, hi: nat, i: nat, k: nat)
    requires Tiles(route, lo, hi) && i < k < |route|
    ensures route[i].end <= route[k].start
    decreases k
  {
    TilesTouch(route, lo, hi, k - 1);
    if i < k - 1 {
      PieceOrder(route, lo, hi, i, k - 1);
      PiecesAfter(route, lo, hi, k - 1);
    }
  }

  /** A greedy route over the whole model is an itinerary, in which each piece is served by
      its peer. */
  lemma GreedyRouteIsItinerary(net: Network, route: seq<Span>) returns (it: Itinerary)
    requires Valid(net) && net.numBlocks > 0 && GreedyRoute(net, route)
    ensures Feasible(net, it)
    ensures forall p :: p in route ==> ServesRun(it.peers, 0, p)
  {
    assert route != [];
    TilesTouch(route, 0, net.numBlocks, 0);
    PiecesAfter(route, 0, net.numBlocks, 0);
    var peers, delays := GreedyJourney(net, route, 0, 0);
    it := Itinerary(peers, [EntryDelay(net, peers[0])] + delays);
    assert it.delays[1..] == delays;
    forall p | p in route ensures ServesRun(it.peers, 0, p) {
      var j :| 0 <= j < |route| && route[j] == p;
    }
  }

  /** Where the greedy planner succeeds, the itinerary of the latency planner is slower than
      the greedy one by less than a nanosecond a hop, if at all. */
  lemma GreedyIsNotFaster(net: Network, it: Itinerary, route: seq<Span>) returns (greedy: Itinerary)
    requires Valid(net) && net.numBlocks > 0 && Cheapest(net, it) && GreedyRoute(net, route)
    ensures Feasible(net, greedy) && forall p :: p in route ==> ServesRun(greedy.peers, 0, p)
    ensures LatencyOf(it) * NANOS < LatencyOf(greedy) * NANOS + (net.numBlocks + 1) as real
  {
    greedy := GreedyRouteIsItinerary(net, route);
    assert NoWorse(net, it, greedy);
  }
}
