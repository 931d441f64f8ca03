/**
 What the latency planner minimises, stated without any graph.

 An itinerary names the peer that serves each block and the delay of every step: entering,
 each hop from one block to the next, and leaving.
 */
module Itineraries {
  import opened Common
  import opened ServerTypes
  import opened SpanTable
  import opened ShortestPath

  const OVERHEAD_DELAY := 0.018
  const DEFAULT_INFERENCE_RPS := 300.0
  const DEFAULT_DELAY := 0.15

  /** The arguments of the planner. */
  datatype Network = Network(
    spans: seq<Span>,
    numBlocks: nat,
    clientRtts: map<PeerId, real>,
    serverRtts: map<(PeerId, PeerId), real>)

  ghost predicate ValidSpan(net: Network, s: Span) {
    && (s.start < net.numBlocks ==> s.end <= net.numBlocks)
    && (s.info.inferenceRps.Some? ==> s.info.inferenceRps.value > 0.0)
    && (s.info.nextPings.Some? ==> forall p :: p in s.info.nextPings.value ==> s.info.nextPings.value[p] >= 0.0)
  }

  /** Round-trip times are not negative and rates are positive; no span that starts inside the
      model runs past its last block. */
  ghost predicate Valid(net: Network) {
    && (forall p :: p in net.clientRtts ==> net.clientRtts[p] >= 0.0)
    && (forall pq :: pq in net.serverRtts ==> net.serverRtts[pq] >= 0.0)
    && forall s :: s in net.spans ==> ValidSpan(net, s)
  }

  // ---------------------------------------------------------------- delays

  function ClientRtt(net: Network, p: PeerId): real {
    if p in net.clientRtts then net.clientRtts[p] else DEFAULT_DELAY
  }

  function EntryDelay(net: Network, p: PeerId): real { ClientRtt(net, p) / 2.0 + OVERHEAD_DELAY }

  function ExitDelay(net: Network, p: PeerId): real { ClientRtt(net, p) / 2.0 }

  function StayDelay(s: Span): real
    requires s.info.inferenceRps.Some? ==> s.info.inferenceRps.value > 0.0
  {
    1.0 / (if s.info.inferenceRps.Some? then s.info.inferenceRps.value else DEFAULT_INFERENCE_RPS)
  }

  function HandoffDelay(net: Network, s: Span, next: PeerId): real {
    var rtt := if (s.peer, next) in net.serverRtts then net.serverRtts[(s.peer, next)]
               else if s.info.nextPings.Some? && next in s.info.nextPings.value then s.info.nextPings.value[next]
               else DEFAULT_DELAY;
    rtt / 2.0 + OVERHEAD_DELAY
  }

  // ---------------------------------------------------------------- itineraries

  ghost predicate HostsBy(net: Network, s: Span, block: nat, p: PeerId) {
    s in net.spans && s.peer == p && s.Contains(block)
  }

  ghost predicate Hosts(net: Network, block: nat, p: PeerId) {
    exists s :: HostsBy(net, s, block, p)
  }

  /** The span `s` takes its peer past block `b`: either it goes on inside the span, or it
      hands over, at the span's end only, to a peer that hosts the next block. */
  ghost predicate HopBy(net: Network, s: Span, b: nat, p: PeerId, q: PeerId, delay: real) {
    && HostsBy(net, s, b, p) && ValidSpan(net, s)
    && ((b + 1 < s.end && q == p && delay == StayDelay(s))
        || (b + 1 < net.numBlocks && s.end == b + 1 && Hosts(net, b + 1, q) && delay == HandoffDelay(net, s, q)))
  }

  ghost predicate Hop(net: Network, b: nat, p: PeerId, q: PeerId, delay: real) {
    exists s :: HopBy(net, s, b, p, q, delay)
  }

  datatype Itinerary = Itinerary(peers: seq<PeerId>, delays: seq<real>)

  /** The peers serve the blocks from `b` on, and `delays` are those of the hops between them
      and of leaving. */
  ghost predicate Onward(net: Network, b: nat, peers: seq<PeerId>, delays: seq<real>)
    decreases net.numBlocks - b
  {
    && b < net.numBlocks && |peers| == |delays| == net.numBlocks - b
    && Hosts(net, b, peers[0])
    && if b + 1 == net.numBlocks then delays[0] == ExitDelay(net, peers[0])
       else Hop(net, b, peers[0], peers[1], delays[0]) && Onward(net, b + 1, peers[1..], delays[1..])
  }

  ghost predicate Feasible(net: Network, it: Itinerary) {
    && it.delays != [] && Onward(net, 0, it.peers, it.delays[1..])
    && it.delays[0] == EntryDelay(net, it.peers[0])
  }

  ghost function Total(delays: seq<real>): real {
    if delays == [] then 0.0 else delays[0] + Total(delays[1..])
  }

  ghost function TotalNanos(delays: seq<real>): int {
    if delays == [] then 0 else CostToNanos(delays[0]) + TotalNanos(delays[1..])
  }

  /** The latency of an itinerary, in seconds. */
  ghost function LatencyOf(it: Itinerary): real { Total(it.delays) }

  /** Every block is inside some span. */
  ghost predicate Covered(net: Network) {
    net.numBlocks > 0 && forall b: nat :: b < net.numBlocks ==> Covering(net.spans, b) != []
  }

  lemma HopEnds(net: Network, b: nat, p: PeerId, q: PeerId, delay: real)
    requires Valid(net) && b < net.numBlocks && Hop(net, b, p, q, delay)
    ensures b + 1 < net.numBlocks && Hosts(net, b, p) && Hosts(net, b + 1, q) && delay >= 0.0
  {
    var s :| HopBy(net, s, b, p, q, delay);
    if b + 1 < s.end {
      assert HostsBy(net, s, b + 1, q);
    }
  }

  /** The peer of each block of an onward journey hosts it. */
  lemma {:induction false} OnwardHosts(net: Network, b: nat, peers: seq<PeerId>, delays: seq<real>, c: nat)
    requires Onward(net, b, peers, delays) && b <= c < net.numBlocks
    ensures Hosts(net, c, peers[c - b])
    ensures c + 1 < net.numBlocks ==> Hop(net, c, peers[c - b], peers[c + 1 - b], delays[c - b])
    decreases c - b
  {
    if c > b {
      assert peers[1..][c - (b + 1)] == peers[c - b] && delays[1..][c - (b + 1)] == delays[c - b];
      OnwardHosts(net, b + 1, peers[1..], delays[1..], c);
    }
  }

  /** From any span that contains block `b`, coverage lets a journey go on to the end: inside
      the span, then from span to span. */
  lemma {:induction false} JourneyExists(net: Network, b: nat, s: Span) returns (peers: seq<PeerId>, delays: seq<real>)
    requires Valid(net) && Covered(net) && b < net.numBlocks && HostsBy(net, s, b, s.peer)
    ensures Onward(net, b, peers, delays) && peers[0] == s.peer
    decreases net.numBlocks - b
  {
    assert ValidSpan(net, s);
    if b + 1 == net.numBlocks {
      peers, delays := [s.peer], [ExitDelay(net, s.peer)];
    } else {
      var next := s;
      if s.end == b + 1 {
        next := Covering(net.spans, b + 1)[0];
        assert next in Covering(net.spans, b + 1);
        assert HostsBy(net, next, b + 1, next.peer);
      }
      assert HostsBy(net, next, b + 1, next.peer);
      var delay := if s.end == b + 1 then HandoffDelay(net, s, next.peer) else StayDelay(s);
      assert HopBy(net, s, b, s.peer, next.peer, delay);
      var ps, ds := JourneyExists(net, b + 1, next);
      peers, delays := [s.peer] + ps, [delay] + ds;
      assert peers[1..] == ps && delays[1..] == ds;
    }
  }

  /** Hand-offs happen only at a span's end, yet coverage alone decides whether there is an
      itinerary. */
  lemma FeasibleIffCovered(net: Network)
    requires Valid(net)
    ensures (exists it :: Feasible(net, it)) <==> Covered(net)
  {
    if Covered(net) {
      var s := Covering(net.spans, 0)[0];
      assert s in Covering(net.spans, 0);
      assert HostsBy(net, s, 0, s.peer);
      var peers, delays := JourneyExists(net, 0, s);
      var it := Itinerary(peers, [EntryDelay(net, peers[0])] + delays);
      assert it.delays[1..] == delays;
      assert Feasible(net, it);
    }
    if it :| Feasible(net, it) {
      forall b: nat | b < net.numBlocks ensures Covering(net.spans, b) != [] {
        OnwardHosts(net, 0, it.peers, it.delays[1..], b);
        var s :| HostsBy(net, s, b, it.peers[b]);
        assert s in Covering(net.spans, b);
      }
    }
  }
}
