/**
 Folding the per-block server tables into one span per peer.

 `ComputeSpans` visits the servers of each block in an order that a hash map leaves open.
 Its result is nevertheless a function of the input, `SpanUpTo`, and that function is
 characterised without any fold by `IsSpanOf`.
 */
module SpanTable {
  import opened Common
  import opened ServerTypes

  function Max(a: nat, b: nat): nat { if a < b then b else a }
  function Min(a: nat, b: nat): nat { if a < b then a else b }
  function SaturatingSub(a: nat, b: nat): nat { if a < b then 0 else a - b }

  /** The number in the first module's uid, as a 32-bit value. */
  function Offset(infos: seq<ModuleInfo>): nat {
    if infos != [] && infos[0].uidNumber.Some? then infos[0].uidNumber.value % 0x1_0000_0000 else 0
  }

  predicate Declared(info: ServerInfo) {
    info.startBlock.Some? && info.endBlock.Some?
  }

  /** The declared range of blocks, shifted by the offset and cut to the known blocks. */
  function Lo(infos: seq<ModuleInfo>, info: ServerInfo): nat
    requires Declared(info)
  {
    SaturatingSub(info.startBlock.value, Offset(infos))
  }

  function Hi(infos: seq<ModuleInfo>, info: ServerInfo): nat
    requires Declared(info)
  {
    Min(SaturatingSub(info.endBlock.value, Offset(infos)), |infos|)
  }

  predicate Eligible(infos: seq<ModuleInfo>, minState: ServerState, peer: PeerId, block: nat) {
    block < |infos| && peer in infos[block].servers
    && infos[block].servers[peer].state.Rank() >= minState.Rank()
  }

  // ---------------------------------------------------------------- the fold

  /** One visit of an eligible announcement. */
  function Visit(infos: seq<ModuleInfo>, entry: Option<Span>, peer: PeerId, block: nat, info: ServerInfo): Span {
    var first := Span(peer, block, block + 1, info);
    var e0 := if entry.None? then first else entry.value;
    var e1 := if e0.info.state.Rank() < info.state.Rank() then e0.(start := block, end := block + 1, info := info)
              else if e0.info.state == info.state then e0.(end := block + 1)
              else e0;
    if Declared(info) then e1.(start := Max(e1.start, Lo(infos, info)), end := Min(e1.end, Hi(infos, info))) else e1
  }

  /** The span of one peer after the blocks before `k`. */
  function SpanUpTo(infos: seq<ModuleInfo>, minState: ServerState, peer: PeerId, k: nat): Option<Span>
    requires k <= |infos|
  {
    if k == 0 then None
    else
      var before := SpanUpTo(infos, minState, peer, k - 1);
      if Eligible(infos, minState, peer, k - 1)
      then Some(Visit(infos, before, peer, k - 1, infos[k - 1].servers[peer]))
      else before
  }

  function SpanOf(infos: seq<ModuleInfo>, minState: ServerState, peer: PeerId): Option<Span> {
    SpanUpTo(infos, minState, peer, |infos|)
  }

  function Lookup(spans: map<PeerId, Span>, peer: PeerId): Option<Span> {
    if peer in spans then Some(spans[peer]) else None
  }

  lemma {:induction false} LeastRankExists(servers: map<PeerId, ServerInfo>, rest: set<PeerId>) returns (p: PeerId)
    requires rest != {} && rest <= servers.Keys
    ensures p in rest && forall q :: q in rest ==> servers[p].state.Rank() <= servers[q].state.Rank()
    decreases rest
  {
    p :| p in rest;
    if rest != {p} {
      var q := LeastRankExists(servers, rest - {p});
      if servers[q].state.Rank() < servers[p].state.Rank() {
        p := q;
      }
    }
  }

  /** Collecting a hash map and sorting by state: any order of the servers in which the
      states do not decrease. */
  method SortedServers(servers: map<PeerId, ServerInfo>) returns (order: seq<PeerId>)
    ensures forall p :: p in order <==> p in servers
    ensures forall i, j :: 0 <= i < j < |order| ==>
              order[i] != order[j] && servers[order[i]].state.Rank() <= servers[order[j]].state.Rank()
  {
    order := [];
    var rest := servers.Keys;
    while rest != {}
      invariant rest <= servers.Keys
      invariant forall p :: p in servers <==> p in order || p in rest
      invariant forall p :: p in rest ==> p !in order
      invariant forall i, q :: 0 <= i < |order| && q in rest ==> servers[order[i]].state.Rank() <= servers[q].state.Rank()
      invariant forall i, j :: 0 <= i < j < |order| ==>
              order[i] != order[j] && servers[order[i]].state.Rank() <= servers[order[j]].state.Rank()
      decreases rest
    {
      ghost var least := LeastRankExists(servers, rest);
      var p :| p in rest && forall q :: q in rest ==> servers[p].state.Rank() <= servers[q].state.Rank();
      order := order + [p];
      rest := rest - {p};
    }
  }

  /** The body of the inner loop, for a server that is eligible. */
  method VisitServer(infos: seq<ModuleInfo>, spans: map<PeerId, Span>, peer: PeerId, b: nat, info: ServerInfo)
    returns (spans': map<PeerId, Span>)
    ensures spans' == spans[peer := Visit(infos, Lookup(spans, peer), peer, b, info)]
  {
    var entry := if peer in spans then spans[peer] else Span(peer, b, b + 1, info);
    if entry.info.state.Rank() < info.state.Rank() {
      entry := entry.(start := b, end := b + 1, info := info);
    } else if entry.info.state == info.state {
      entry := entry.(end := b + 1);
    }
    if info.startBlock.Some? && info.endBlock.Some? {
      var offset := Offset(infos);
      entry := entry.(start := Max(entry.start, SaturatingSub(info.startBlock.value, offset)));
      entry := entry.(end := Min(entry.end, Min(SaturatingSub(info.endBlock.value, offset), |infos|)));
    }
    spans' := spans[peer := entry];
  }

  method ComputeSpans(infos: seq<ModuleInfo>, minState: ServerState) returns (spans: map<PeerId, Span>)
    ensures forall p :: Lookup(spans, p) == SpanOf(infos, minState, p)
  {
    spans := map[];
    if infos == [] {
      return;
    }
    for b := 0 to |infos|
      invariant forall p :: Lookup(spans, p) == SpanUpTo(infos, minState, p, b)
    {
      spans := VisitBlock(infos, minState, b, spans);
    }
  }

  /** The loop over the servers of block `b`. */
  method VisitBlock(infos: seq<ModuleInfo>, minState: ServerState, b: nat, before: map<PeerId, Span>)
    returns (spans: map<PeerId, Span>)
    requires b < |infos| && forall p :: Lookup(before, p) == SpanUpTo(infos, minState, p, b)
    ensures forall p :: Lookup(spans, p) == SpanUpTo(infos, minState, p, b + 1)
  {
    hide SpanUpTo, Visit;
    spans := before;
    var servers := infos[b].servers;
    var order := SortedServers(servers);
    ghost var done := {};
    for i := 0 to |order|
      invariant forall j :: 0 <= j < i ==> order[j] in done
      invariant forall j :: i <= j < |order| ==> order[j] !in done
      invariant forall p :: Lookup(spans, p) == SpanUpTo(infos, minState, p, if p in done then b + 1 else b)
    {
      var peer := order[i];
      var info := servers[peer];
      SpanStep(infos, minState, peer, b);
      if info.state.Rank() >= minState.Rank() {
        spans := VisitServer(infos, spans, peer, b, info);
      }
      done := done + {peer};
    }
    forall p ensures Lookup(spans, p) == SpanUpTo(infos, minState, p, b + 1) {
      SpanStep(infos, minState, p, b);
    }
  }

  lemma SpanStep(infos: seq<ModuleInfo>, minState: ServerState, peer: PeerId, b: nat)
    requires b < |infos|
    ensures SpanUpTo(infos, minState, peer, b + 1) ==
              if Eligible(infos, minState, peer, b)
              then Some(Visit(infos, SpanUpTo(infos, minState, peer, b), peer, b, infos[b].servers[peer]))
              else SpanUpTo(infos, minState, peer, b)
  {
  }

  // ---------------------------------------------------------------- the declarative form

  /** `f` and `l` are the first and the last block, before `k`, at which the peer announced
      its highest eligible state. */
  ghost predicate TopBlocks(infos: seq<ModuleInfo>, minState: ServerState, peer: PeerId, k: nat, f: nat, l: nat) {
    && k <= |infos| && f <= l < k
    && Eligible(infos, minState, peer, f) && Eligible(infos, minState, peer, l)
    && infos[f].servers[peer].state == infos[l].servers[peer].state
    && forall b: nat :: b < k && Eligible(infos, minState, peer, b) ==>
         && infos[b].servers[peer].state.Rank() <= infos[f].servers[peer].state.Rank()
         && (infos[b].servers[peer].state == infos[f].servers[peer].state ==> f <= b <= l)
  }

  /** The peer declared a range with the eligible announcement of block `b`. */
  ghost predicate DeclaresAt(infos: seq<ModuleInfo>, minState: ServerState, peer: PeerId, b: nat) {
    Eligible(infos, minState, peer, b) && Declared(infos[b].servers[peer])
  }

  /** The span starts at `f`, or later where a range declared from `f` on starts later; it
      ends after `l`, or earlier where a range declared from `l` on ends earlier. */
  ghost predicate IsSpanOf(infos: seq<ModuleInfo>, minState: ServerState, peer: PeerId, k: nat, f: nat, l: nat, s: Span)
  {
    && TopBlocks(infos, minState, peer, k, f, l)
    && s.peer == peer && s.info == infos[f].servers[peer]
    && s.start >= f && s.end <= l + 1
    && (forall b: nat :: f <= b < k && DeclaresAt(infos, minState, peer, b) ==> s.start >= Lo(infos, infos[b].servers[peer]))
    && (forall b: nat :: l <= b < k && DeclaresAt(infos, minState, peer, b) ==> s.end <= Hi(infos, infos[b].servers[peer]))
    && (s.start == f || exists b: nat :: f <= b < k && DeclaresAt(infos, minState, peer, b) && s.start == Lo(infos, infos[b].servers[peer]))
    && (s.end == l + 1 || exists b: nat :: l <= b < k && DeclaresAt(infos, minState, peer, b) && s.end == Hi(infos, infos[b].servers[peer]))
  }

  lemma VisitOpens(infos: seq<ModuleInfo>, minState: ServerState, peer: PeerId, b: nat, entry: Option<Span>)
    requires Eligible(infos, minState, peer, b)
    requires forall c: nat :: c < b && Eligible(infos, minState, peer, c) ==>
               infos[c].servers[peer].state.Rank() < infos[b].servers[peer].state.Rank()
    requires entry.Some? ==>
               entry.value.peer == peer && entry.value.info.state.Rank() < infos[b].servers[peer].state.Rank()
    ensures IsSpanOf(infos, minState, peer, b + 1, b, b, Visit(infos, entry, peer, b, infos[b].servers[peer]))
  {
    assert DeclaresAt(infos, minState, peer, b) <==> Declared(infos[b].servers[peer]);
    assert TopBlocks(infos, minState, peer, b + 1, b, b);
  }

  lemma VisitContinues(infos: seq<ModuleInfo>, minState: ServerState, peer: PeerId, b: nat, f: nat, l: nat, s: Span)
    requires IsSpanOf(infos, minState, peer, b, f, l, s) && Eligible(infos, minState, peer, b)
    requires infos[b].servers[peer].state == s.info.state
    ensures IsSpanOf(infos, minState, peer, b + 1, f, b, Visit(infos, Some(s), peer, b, infos[b].servers[peer]))
  {
    assert DeclaresAt(infos, minState, peer, b) <==> Declared(infos[b].servers[peer]);
    assert TopBlocks(infos, minState, peer, b + 1, f, b);
  }

  lemma VisitOnlyClamps(infos: seq<ModuleInfo>, minState: ServerState, peer: PeerId, b: nat, f: nat, l: nat, s: Span)
    requires IsSpanOf(infos, minState, peer, b, f, l, s) && Eligible(infos, minState, peer, b)
    requires infos[b].servers[peer].state.Rank() < s.info.state.Rank()
    ensures IsSpanOf(infos, minState, peer, b + 1, f, l, Visit(infos, Some(s), peer, b, infos[b].servers[peer]))
  {
    assert DeclaresAt(infos, minState, peer, b) <==> Declared(infos[b].servers[peer]);
    assert TopBlocks(infos, minState, peer, b + 1, f, l);
  }

  lemma SkipKeeps(infos: seq<ModuleInfo>, minState: ServerState, peer: PeerId, b: nat, f: nat, l: nat, s: Span)
    requires IsSpanOf(infos, minState, peer, b, f, l, s) && b < |infos| && !Eligible(infos, minState, peer, b)
    ensures IsSpanOf(infos, minState, peer, b + 1, f, l, s)
  {
    assert !DeclaresAt(infos, minState, peer, b);
    assert TopBlocks(infos, minState, peer, b + 1, f, l);
  }

  /** A peer has a span exactly if some announcement of it is eligible. */
  lemma {:induction false} SpanExists(infos: seq<ModuleInfo>, minState: ServerState, peer: PeerId, k: nat)
    requires k <= |infos|
    ensures SpanUpTo(infos, minState, peer, k).None? <==>
              forall b: nat :: b < k ==> !Eligible(infos, minState, peer, b)
  {
    if k > 0 {
      SpanExists(infos, minState, peer, k - 1);
    }
  }

  /** Whatever was declared, a span is the declarative one. */
  lemma {:induction false} SpanClosedForm(infos: seq<ModuleInfo>, minState: ServerState, peer: PeerId, k: nat)
    returns (f: nat, l: nat)
    requires k <= |infos| && SpanUpTo(infos, minState, peer, k).Some?
    ensures IsSpanOf(infos, minState, peer, k, f, l, SpanUpTo(infos, minState, peer, k).value)
  {
    var b := k - 1;
    var before := SpanUpTo(infos, minState, peer, b);
    SpanExists(infos, minState, peer, b);
    if before.None? {
      VisitOpens(infos, minState, peer, b, before);
      f, l := b, b;
    } else {
      f, l := SpanClosedForm(infos, minState, peer, b);
      if !Eligible(infos, minState, peer, b) {
        SkipKeeps(infos, minState, peer, b, f, l, before.value);
      } else {
        var info := infos[b].servers[peer];
        if before.value.info.state.Rank() < info.state.Rank() {
          VisitOpens(infos, minState, peer, b, before);
          f, l := b, b;
        } else if before.value.info.state == info.state {
          VisitContinues(infos, minState, peer, b, f, l, before.value);
          l := b;
        } else {
          VisitOnlyClamps(infos, minState, peer, b, f, l, before.value);
        }
      }
    }
  }

  /** Every span ends within the known blocks. */
  lemma SpanEndsWithinBlocks(infos: seq<ModuleInfo>, minState: ServerState, peer: PeerId)
    requires SpanOf(infos, minState, peer).Some?
    ensures SpanOf(infos, minState, peer).value.peer == peer
    ensures SpanOf(infos, minState, peer).value.end <= |infos|
  {
    var f, l := SpanClosedForm(infos, minState, peer, |infos|);
  }

  /** The declared ranges of a peer contain all the blocks at which it is eligible. */
  ghost predicate HonestRanges(infos: seq<ModuleInfo>, minState: ServerState, peer: PeerId) {
    forall b: nat, c: nat :: DeclaresAt(infos, minState, peer, b) && Eligible(infos, minState, peer, c) ==>
      Lo(infos, infos[b].servers[peer]) <= c < Hi(infos, infos[b].servers[peer])
  }

  /** With honest declarations, or none, a span runs from the first to the last block at
      the peer's highest eligible state, with the announcement of the first. */
  lemma HonestSpan(infos: seq<ModuleInfo>, minState: ServerState, peer: PeerId) returns (f: nat, l: nat)
    requires SpanOf(infos, minState, peer).Some? && HonestRanges(infos, minState, peer)
    ensures TopBlocks(infos, minState, peer, |infos|, f, l)
    ensures SpanOf(infos, minState, peer) == Some(Span(peer, f, l + 1, infos[f].servers[peer]))
  {
    f, l := SpanClosedForm(infos, minState, peer, |infos|);
  }

  /** Exactly when a span has a length, so that `end - start` does not underflow: every range
      declared from the first top block on starts no later than the span may end. */
  lemma SpanLengthIsDefined(infos: seq<ModuleInfo>, minState: ServerState, peer: PeerId) returns (f: nat, l: nat)
    requires SpanOf(infos, minState, peer).Some?
    ensures TopBlocks(infos, minState, peer, |infos|, f, l)
    ensures var s := SpanOf(infos, minState, peer).value;
            s.start <= s.end <==>
              && (forall b: nat :: f <= b && DeclaresAt(infos, minState, peer, b) ==> Lo(infos, infos[b].servers[peer]) <= l + 1)
              && (forall c: nat :: l <= c && DeclaresAt(infos, minState, peer, c) ==> f <= Hi(infos, infos[c].servers[peer]))
              && forall b: nat, c: nat | f <= b && l <= c :: DeclaresAt(infos, minState, peer, b) && DeclaresAt(infos, minState, peer, c) ==>
                   Lo(infos, infos[b].servers[peer]) <= Hi(infos, infos[c].servers[peer])
  {
    f, l := SpanClosedForm(infos, minState, peer, |infos|);
  }

  /** A server of the only block that declares a range beyond it gets a span of negative length. */
  lemma SpanLengthUnderflows(rest: ServerInfo)
    ensures var info := rest.(state := Online, startBlock := Some(5), endBlock := Some(9));
            var infos := [ModuleInfo(None, map[7 := info])];
            SpanOf(infos, Online, 7) == Some(Span(7, 5, 1, info))
  {
    var info := rest.(state := Online, startBlock := Some(5), endBlock := Some(9));
    var infos := [ModuleInfo(None, map[7 := info])];
    assert SpanUpTo(infos, Online, 7, 0).None?;
    assert Eligible(infos, Online, 7, 0);
  }

  // ---------------------------------------------------------------- the spans of a block

  /** The spans that contain a block, in the order given. */
  function Covering(spans: seq<Span>, block: nat): (r: seq<Span>)
    ensures forall s :: s in r <==> s in spans && s.Contains(block)
  {
    if spans == [] then []
    else
      var rest := Covering(spans[..|spans| - 1], block);
      var s := spans[|spans| - 1];
      if s.Contains(block) then rest + [s] else rest
  }

  method SpansContainingBlock(spans: seq<Span>, numBlocks: nat) returns (result: seq<seq<Span>>)
    ensures |result| == numBlocks && forall b: nat :: b < numBlocks ==> result[b] == Covering(spans, b)
  {
    result := seq(numBlocks, _ => []);
    for i := 0 to |spans|
      invariant |result| == numBlocks
      invariant forall b: nat :: b < numBlocks ==> result[b] == Covering(spans[..i], b)
    {
      var span := spans[i];
      ghost var before := result;
      assert spans[..i + 1][..i] == spans[..i];
      if span.start < span.end {
        for b := span.start to span.end
          invariant |result| == numBlocks
          invariant forall c: nat :: c < numBlocks ==>
                      result[c] == if span.start <= c < b then before[c] + [span] else before[c]
        {
          if b < numBlocks {
            result := result[b := result[b] + [span]];
          }
        }
      }
    }
    assert spans[..|spans|] == spans;
  }
}
