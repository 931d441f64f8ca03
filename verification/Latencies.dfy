/**
 What journeys cost, in plain numbers: round-trip times, rates and the planner's constants.
 */
module Latencies {
  import opened Common
  import opened ServerTypes
  import opened SpanTable
  import opened Itineraries
  import opened Planner

  /** The round-trip time between client and peer, 0.15 s where it is not known. */
  function ClientTrip(net: Network, p: PeerId): real {
    if p in net.clientRtts then net.clientRtts[p] else 0.15
  }

  /** Blocks per second, 300 where the server does not say. */
  function Rate(s: Span): real {
    if s.info.inferenceRps.Some? then s.info.inferenceRps.value else 300.0
  }

  /** The round-trip time from a span's server to the next one: as measured, else as the server
      says, else 0.15 s. */
  function ServerTrip(net: Network, s: Span, next: PeerId): real {
    if (s.peer, next) in net.serverRtts then net.serverRtts[(s.peer, next)]
    else if s.info.nextPings == None || next !in s.info.nextPings.value then 0.15
    else s.info.nextPings.value[next]
  }

  /** The first and the last delay are half a round trip each, and entering takes 18 ms more. */
  lemma EndsCost(net: Network, it: Itinerary)
    requires Feasible(net, it)
    ensures |it.peers| == net.numBlocks > 0 && |it.delays| == net.numBlocks + 1
    ensures it.delays[0] == ClientTrip(net, it.peers[0]) / 2.0 + 0.018
    ensures it.delays[net.numBlocks] == ClientTrip(net, it.peers[net.numBlocks - 1]) / 2.0
  {
    OnwardAt(net, 0, it.peers, it.delays[1..], net.numBlocks - 1);
  }

  lemma {:induction false} OnwardAt(net: Network, b: nat, peers: seq<PeerId>, delays: seq<real>, c: nat)
    requires Onward(net, b, peers, delays) && b <= c < net.numBlocks
    ensures |peers| == |delays| == net.numBlocks - b && Onward(net, c, peers[c - b..], delays[c - b..])
    ensures c == net.numBlocks - 1 ==> delays[c - b] == ExitDelay(net, peers[c - b])
    ensures c < net.numBlocks - 1 ==> Hop(net, c, peers[c - b], peers[c - b + 1], delays[c - b])
    decreases c - b
  {
    if b < c {
      OnwardAt(net, b + 1, peers[1..], delays[1..], c);
      assert peers[1..][c - b - 1..] == peers[c - b..] && delays[1..][c - b - 1..] == delays[c - b..];
    } else {
      assert peers[0..] == peers && delays[0..] == delays;
    }
  }

  /** Past block `b`, a journey either goes on inside a span of its peer, which takes one over the
      rate, or leaves the span at its end, which takes half a round trip and 18 ms. */
  lemma HopCosts(net: Network, it: Itinerary, b: nat) returns (s: Span)
    requires Feasible(net, it) && b + 1 < net.numBlocks
    ensures |it.peers| == net.numBlocks && |it.delays| == net.numBlocks + 1
    ensures s in net.spans && s.peer == it.peers[b] && s.start <= b < s.end
    ensures b + 1 < s.end ==> it.peers[b + 1] == s.peer && it.delays[b + 1] * Rate(s) == 1.0
    ensures b + 1 == s.end ==> it.delays[b + 1] == ServerTrip(net, s, it.peers[b + 1]) / 2.0 + 0.018
  {
    EndsCost(net, it);
    hide Onward, Feasible, Hop;
    JourneyHops(net, it, b);
    s := HopCost(net, b, it.peers[b], it.peers[b + 1], it.delays[b + 1]);
  }

  lemma JourneyHops(net: Network, it: Itinerary, b: nat)
    requires Feasible(net, it) && b + 1 < net.numBlocks
    ensures |it.peers| == net.numBlocks && |it.delays| == net.numBlocks + 1
    ensures Hop(net, b, it.peers[b], it.peers[b + 1], it.delays[b + 1])
  {
    OnwardAt(net, 0, it.peers, it.delays[1..], b);
  }

  lemma HopCost(net: Network, b: nat, p: PeerId, q: PeerId, delay: real) returns (s: Span)
    requires Hop(net, b, p, q, delay)
    ensures s in net.spans && s.peer == p && s.start <= b < s.end
    ensures b + 1 < s.end ==> q == p && delay * Rate(s) == 1.0
    ensures b + 1 == s.end ==> delay == ServerTrip(net, s, q) / 2.0 + 0.018
  {
    s :| HopBy(net, s, b, p, q, delay);
    Reciprocal(Rate(s));
  }

  lemma Reciprocal(r: real)
    requires r != 0.0
    ensures 1.0 / r * r == 1.0
  {
  }

  // ---------------------------------------------------------------- whole journeys

  /** The peer's only span. */
  ghost predicate OnlySpan(net: Network, s: Span) {
    s in net.spans && ValidSpan(net, s) && forall t :: t in net.spans && t.peer == s.peer ==> t == s
  }

  ghost predicate Serves(peers: seq<PeerId>, lo: int, hi: int, p: PeerId) {
    forall i :: lo <= i < hi && 0 <= i < |peers| ==> peers[i] == p
  }

  /** What it takes to stay for one block: one over the rate. */
  predicate IsStay(s: Span, x: real) {
    Rate(s) > 0.0 && x == 1.0 / Rate(s)
  }

  /** `m * x` */
  function Stays(m: nat, x: real): real {
    if m == 0 then 0.0 else x + Stays(m - 1, x)
  }

  lemma {:induction false} StaysIsProduct(m: nat, x: real)
    ensures Stays(m, x) == m as real * x
  {
    if m > 0 {
      StaysIsProduct(m - 1, x);
      assert m as real * x == (m - 1) as real * x + x;
    }
  }

  /** As long as a journey stays with one peer, each block but the last costs one over the rate, `x`. */
  lemma {:induction false} StaysCost(net: Network, b: nat, peers: seq<PeerId>, delays: seq<real>, s: Span, m: nat, x: real)
    requires Onward(net, b, peers, delays) && b + m < net.numBlocks && OnlySpan(net, s)
    requires Serves(peers, 0, m + 1, s.peer) && IsStay(s, x)
    ensures |peers| == |delays| == net.numBlocks - b
    ensures Onward(net, b + m, peers[m..], delays[m..])
    ensures Total(delays) == Stays(m, x) + Total(delays[m..])
    decreases m
  {
    SameLengths(net, b, peers, delays);
    hide Onward, OnlySpan, IsStay, Total;
    if m > 0 {
      NextStillHosts(net, b, peers, delays, s, x);
      StaysCost(net, b + 1, peers[1..], delays[1..], s, m - 1, x);
      assert peers[1..][m - 1..] == peers[m..] && delays[1..][m - 1..] == delays[m..];
      TotalStep(delays);
    } else {
      assert peers[0..] == peers && delays[0..] == delays;
    }
  }

  lemma TotalStep(delays: seq<real>)
    requires delays != []
    ensures Total(delays) == delays[0] + Total(delays[1..])
  {
  }

  lemma SameLengths(net: Network, b: nat, peers: seq<PeerId>, delays: seq<real>)
    requires Onward(net, b, peers, delays)
    ensures b < net.numBlocks && |peers| == |delays| == net.numBlocks - b
  {
  }

  /** With one span only, a peer that serves two blocks running does not hand over to itself. */
  lemma NextStillHosts(net: Network, b: nat, peers: seq<PeerId>, delays: seq<real>, s: Span, x: real)
    requires Onward(net, b, peers, delays) && b + 1 < net.numBlocks && OnlySpan(net, s) && IsStay(s, x)
    requires peers[0] == s.peer && peers[1] == s.peer
    ensures b + 1 < s.end && delays[0] == x && Onward(net, b + 1, peers[1..], delays[1..])
  {
    var t :| HopBy(net, t, b, peers[0], peers[1], delays[0]);
    var u :| HostsBy(net, u, b + 1, peers[1]);
    assert t == s && u == s;
  }

  ghost predicate ServedBy(net: Network, it: Itinerary, p: PeerId) {
    Feasible(net, it) && Serves(it.peers, 0, net.numBlocks, p)
  }

  /** One peer over the whole model, at rate r and with client round trip c: (c + 0.018) r plus one
      for each block but the first, over r. */
  lemma OnePeerCosts(net: Network, it: Itinerary, s: Span)
    requires OnlySpan(net, s) && ServedBy(net, it, s.peer)
    ensures LatencyOf(it) == ClientTrip(net, s.peer) + 0.018 + (net.numBlocks - 1) as real * (1.0 / Rate(s))
    ensures LatencyOf(it) * Rate(s) == (ClientTrip(net, s.peer) + 0.018) * Rate(s) + (net.numBlocks - 1) as real
  {
    var x := 1.0 / Rate(s);
    OnePeerTotal(net, it, s, x);
    StaysIsProduct(net.numBlocks - 1, x);
    TimesRate(ClientTrip(net, s.peer) + 0.018, (net.numBlocks - 1) as real, Rate(s));
  }

  lemma OnePeerTotal(net: Network, it: Itinerary, s: Span, x: real)
    requires OnlySpan(net, s) && ServedBy(net, it, s.peer) && IsStay(s, x)
    ensures net.numBlocks > 0 && LatencyOf(it) == ClientTrip(net, s.peer) + 0.018 + Stays(net.numBlocks - 1, x)
  {
    EndsCost(net, it);
    hide Onward, Total, OnlySpan, IsStay, ClientTrip, Stays;
    LastLeg(net, 0, it.peers, it.delays[1..], s, x);
    TotalStep(it.delays);
  }

  lemma LastDelay(delays: seq<real>)
    requires |delays| == 1
    ensures Total(delays) == delays[0]
  {
    assert delays[1..] == [];
  }

  lemma TimesRate(c: real, n: real, r: real)
    requires r > 0.0
    ensures (c + n * (1.0 / r)) * r == c * r + n
  {
    var x := 1.0 / r;
    Reciprocal(r);
    assert (c + n * x) * r == c * r + n * (x * r);
  }

  /** Two peers with a hand-off at block `k`: both halves of the client's round trips, 18 ms on
      entering and 18 ms and half a round trip on handing over, and the stays at either peer. */
  lemma HandoffCosts(net: Network, it: Itinerary, s: Span, t: Span, k: nat)
    requires Feasible(net, it) && OnlySpan(net, s) && OnlySpan(net, t) && s.peer != t.peer
    requires 0 < k < net.numBlocks && Serves(it.peers, 0, k, s.peer) && Serves(it.peers, k, net.numBlocks, t.peer)
    ensures LatencyOf(it) ==
              ClientTrip(net, s.peer) / 2.0 + 0.018
              + (k - 1) as real * (1.0 / Rate(s))
              + ServerTrip(net, s, t.peer) / 2.0 + 0.018
              + (net.numBlocks - k - 1) as real * (1.0 / Rate(t))
              + ClientTrip(net, t.peer) / 2.0
  {
    var n, x, y := net.numBlocks, 1.0 / Rate(s), 1.0 / Rate(t);
    StaysIsProduct(k - 1, x);
    StaysIsProduct(n - k - 1, y);
    HandoffTotal(net, it, s, t, k, x, y);
  }

  lemma HandoffTotal(net: Network, it: Itinerary, s: Span, t: Span, k: nat, x: real, y: real)
    requires Feasible(net, it) && OnlySpan(net, s) && OnlySpan(net, t) && s.peer != t.peer
    requires 0 < k < net.numBlocks && Serves(it.peers, 0, k, s.peer) && Serves(it.peers, k, net.numBlocks, t.peer)
    requires IsStay(s, x) && IsStay(t, y)
    ensures LatencyOf(it) ==
              ClientTrip(net, s.peer) / 2.0 + 0.018 + Stays(k - 1, x) + ServerTrip(net, s, t.peer) / 2.0 + 0.018
              + Stays(net.numBlocks - k - 1, y) + ClientTrip(net, t.peer) / 2.0
  {
    var n, onward := net.numBlocks, it.delays[1..];
    EndsCost(net, it);
    hide Onward, IsStay, ServerTrip, ClientTrip, OnlySpan, Total, Stays, Feasible;
    FirstLeg(net, it.peers, onward, s, k, t.peer, x);
    LastLeg(net, k, it.peers[k..], onward[k..], t, y);
    TotalStep(it.delays);
  }

  /** The stays at the first peer and the hand-off to the second. */
  lemma FirstLeg(net: Network, peers: seq<PeerId>, delays: seq<real>, s: Span, k: nat, next: PeerId, x: real)
    requires Onward(net, 0, peers, delays) && 0 < k < net.numBlocks && OnlySpan(net, s) && IsStay(s, x)
    requires |peers| == net.numBlocks && Serves(peers, 0, k, s.peer) && peers[k] == next != s.peer
    ensures |delays| == net.numBlocks && Onward(net, k, peers[k..], delays[k..])
    ensures Total(delays) == Stays(k - 1, x) + (ServerTrip(net, s, next) / 2.0 + 0.018) + Total(delays[k..])
  {
    hide Onward, IsStay, ServerTrip, OnlySpan, Total, Stays;
    StaysCost(net, 0, peers, delays, s, k - 1, x);
    var peers1, delays1 := peers[k - 1..], delays[k - 1..];
    HandoffCost(net, k - 1, peers1, delays1, s);
    assert peers1[1..] == peers[k..] && delays1[1..] == delays[k..];
  }

  /** The stays at the last peer, and leaving it. */
  lemma LastLeg(net: Network, b: nat, peers: seq<PeerId>, delays: seq<real>, s: Span, x: real)
    requires Onward(net, b, peers, delays) && OnlySpan(net, s) && IsStay(s, x) && Serves(peers, 0, net.numBlocks - b, s.peer)
    ensures b < net.numBlocks && |delays| == net.numBlocks - b
    ensures Total(delays) == Stays(net.numBlocks - b - 1, x) + delays[net.numBlocks - b - 1]
  {
    SameLengths(net, b, peers, delays);
    hide Onward, IsStay, OnlySpan, Total, Stays;
    StaysCost(net, b, peers, delays, s, net.numBlocks - b - 1, x);
    LastDelay(delays[net.numBlocks - b - 1..]);
  }

  lemma HandoffCost(net: Network, b: nat, peers: seq<PeerId>, delays: seq<real>, s: Span)
    requires Onward(net, b, peers, delays) && b + 1 < net.numBlocks && OnlySpan(net, s)
    requires peers[0] == s.peer && peers[1] != s.peer
    ensures delays[0] == ServerTrip(net, s, peers[1]) / 2.0 + 0.018 && Onward(net, b + 1, peers[1..], delays[1..])
    ensures Total(delays) == delays[0] + Total(delays[1..])
  {
    var t :| HopBy(net, t, b, peers[0], peers[1], delays[0]);
    assert t == s;
  }

  // ---------------------------------------------------------------- what the planner prefers

  lemma {:induction false} WholeSpanJourney(net: Network, s: Span, b: nat) returns (peers: seq<PeerId>, delays: seq<real>)
    requires OnlySpan(net, s) && s.start == 0 && s.end == net.numBlocks && b < net.numBlocks
    ensures Onward(net, b, peers, delays) && Serves(peers, 0, |peers|, s.peer)
    decreases net.numBlocks - b
  {
    assert HostsBy(net, s, b, s.peer);
    if b + 1 == net.numBlocks {
      peers, delays := [s.peer], [ExitDelay(net, s.peer)];
    } else {
      var ps, ds := WholeSpanJourney(net, s, b + 1);
      assert HopBy(net, s, b, s.peer, s.peer, StayDelay(s));
      peers, delays := [s.peer] + ps, [StayDelay(s)] + ds;
      assert peers[1..] == ps && delays[1..] == ds;
    }
  }

  /** A cheapest journey served by one peer alone takes less time than any other peer that spans
      the whole model would take, plus one nanosecond a hop. */
  lemma BestPeerWins(net: Network, it: Itinerary, s: Span, t: Span)
    requires Cheapest(net, it) && OnlySpan(net, s) && ServedBy(net, it, s.peer)
    requires OnlySpan(net, t) && t.start == 0 && t.end == net.numBlocks
    ensures (ClientTrip(net, s.peer) + (net.numBlocks - 1) as real * (1.0 / Rate(s))) * 1000000000.0 <
              (ClientTrip(net, t.peer) + (net.numBlocks - 1) as real * (1.0 / Rate(t))) * 1000000000.0
              + (net.numBlocks + 1) as real
  {
    var peers, delays := WholeSpanJourney(net, t, 0);
    var other := Itinerary(peers, [EntryDelay(net, peers[0])] + delays);
    assert other.delays[1..] == delays;
    assert NoWorse(net, it, other);
    OnePeerCosts(net, it, s);
    OnePeerCosts(net, other, t);
  }

  /** Of two peers that span the model at the same distance from the client, the route is never
      that of the peer slower by more than the rounding. */
  lemma SlowPeerIsNotChosen(net: Network, it: Itinerary, route: seq<Span>, s: Span, t: Span)
    requires Cheapest(net, it) && GroupsRuns(net, it.peers, route)
    requires OnlySpan(net, s) && OnlySpan(net, t) && t.start == 0 && t.end == net.numBlocks
    requires ClientTrip(net, s.peer) == ClientTrip(net, t.peer)
    requires (net.numBlocks - 1) as real * (1.0 / Rate(s)) * 1000000000.0 >=
               (net.numBlocks - 1) as real * (1.0 / Rate(t)) * 1000000000.0 + (net.numBlocks + 1) as real
    ensures !(|route| == 1 && route[0].peer == s.peer)
  {
    if |route| == 1 && route[0].peer == s.peer {
      assert IsRun(net, it.peers, route[0]);
      TilesTouch(route, 0, |it.peers|, 0);
      BestPeerWins(net, it, s, t);
    }
  }
}
