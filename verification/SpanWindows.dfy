/**
 What the span table makes of announcements, in plain numbers: which states count, and how the
 declared ranges, which count blocks of the whole model, meet a window of it.
 */
module SpanWindows {
  import opened Common
  import opened ServerTypes
  import opened SpanTable

  /** The states are ordered: offline, joining, online. */
  lemma RanksOrder(a: ServerState, b: ServerState)
    ensures a.Rank() <= b.Rank() <==> a == b || a == Offline || b == Online
  {
  }

  ghost predicate Announces(infos: seq<ModuleInfo>, peer: PeerId, b: nat, state: ServerState) {
    b < |infos| && peer in infos[b].servers && infos[b].servers[peer].state == state
  }

  /** Online spans are those of the peers that are online at some block; where joining servers
      count too, a peer has a span unless it is offline everywhere; and a peer that is online
      somewhere has a span with an online announcement. */
  lemma WhichStatesCount(infos: seq<ModuleInfo>, peer: PeerId)
    ensures SpanOf(infos, Online, peer).Some? <==> exists b: nat :: Announces(infos, peer, b, Online)
    ensures SpanOf(infos, Joining, peer).Some? <==>
              (exists b: nat :: Announces(infos, peer, b, Online)) || exists b: nat :: Announces(infos, peer, b, Joining)
    ensures (exists b: nat :: Announces(infos, peer, b, Online)) ==>
              SpanOf(infos, Joining, peer).Some? && SpanOf(infos, Joining, peer).value.info.state == Online
  {
    SpanExists(infos, Online, peer, |infos|);
    SpanExists(infos, Joining, peer, |infos|);
    assert forall b: nat :: Eligible(infos, Online, peer, b) <==> Announces(infos, peer, b, Online);
    assert forall b: nat :: Eligible(infos, Joining, peer, b) <==>
                              Announces(infos, peer, b, Online) || Announces(infos, peer, b, Joining);
    if b: nat :| Announces(infos, peer, b, Online) {
      assert Eligible(infos, Joining, peer, b);
      var f, l := SpanClosedForm(infos, Joining, peer, |infos|);
    }
  }

  /** The number that ends the uid of the first block, as a 32-bit value. */
  ghost predicate StartsAt(infos: seq<ModuleInfo>, u: nat) {
    infos != [] && u == if infos[0].uidNumber.Some? then infos[0].uidNumber.value % 4294967296 else 0
  }

  /** The peer announces itself at every block with the same state and range. */
  ghost predicate Declares(infos: seq<ModuleInfo>, peer: PeerId, state: ServerState, lo: nat, hi: nat) {
    forall b: nat :: b < |infos| ==>
      && Announces(infos, peer, b, state)
      && infos[b].servers[peer].startBlock == Some(lo) && infos[b].servers[peer].endBlock == Some(hi)
  }

  /** A range of blocks `lo..hi` of the model, declared at all `n` blocks of a window that starts
      at block `u`: the span is the part of the range inside the window, counted from `u`. */
  lemma DeclaredSpan(infos: seq<ModuleInfo>, minState: ServerState, peer: PeerId, state: ServerState,
                     u: nat, lo: nat, hi: nat)
    requires StartsAt(infos, u) && Declares(infos, peer, state, lo, hi) && minState.Rank() <= state.Rank()
    ensures SpanOf(infos, minState, peer) ==
              Some(Span(peer,
                        if lo > u then lo - u else 0,
                        if hi < u then 0 else if hi - u < |infos| then hi - u else |infos|,
                        infos[0].servers[peer]))
  {
    var n := |infos|;
    assert forall b: nat :: b < n ==> Announces(infos, peer, b, state);
    assert Eligible(infos, minState, peer, 0) && Eligible(infos, minState, peer, n - 1);
    SpanExists(infos, minState, peer, n);
    var f, l := SpanClosedForm(infos, minState, peer, n);
    FirstAndLast(infos, minState, peer, state, f, l);
    CutToWindow(infos, minState, peer, state, u, lo, hi, SpanOf(infos, minState, peer).value);
  }

  lemma FirstAndLast(infos: seq<ModuleInfo>, minState: ServerState, peer: PeerId, state: ServerState, f: nat, l: nat)
    requires infos != [] && minState.Rank() <= state.Rank() && TopBlocks(infos, minState, peer, |infos|, f, l)
    requires forall b: nat :: b < |infos| ==> Announces(infos, peer, b, state)
    ensures f == 0 && l == |infos| - 1
  {
    assert Announces(infos, peer, 0, state) && Announces(infos, peer, |infos| - 1, state) && Announces(infos, peer, f, state);
    assert Eligible(infos, minState, peer, 0) && Eligible(infos, minState, peer, |infos| - 1);
  }

  lemma CutToWindow(infos: seq<ModuleInfo>, minState: ServerState, peer: PeerId, state: ServerState,
                    u: nat, lo: nat, hi: nat, s: Span)
    requires StartsAt(infos, u) && Declares(infos, peer, state, lo, hi) && minState.Rank() <= state.Rank()
    requires IsSpanOf(infos, minState, peer, |infos|, 0, |infos| - 1, s)
    ensures s == Span(peer,
                      if lo > u then lo - u else 0,
                      if hi < u then 0 else if hi - u < |infos| then hi - u else |infos|,
                      infos[0].servers[peer])
  {
    hide TopBlocks;
    var n := |infos|;
    assert Announces(infos, peer, 0, state) && Announces(infos, peer, n - 1, state);
    assert DeclaresAt(infos, minState, peer, 0) && DeclaresAt(infos, minState, peer, n - 1);
  }

  /** A server that declares exactly the blocks of the window has the whole window. */
  lemma OwnWindow(infos: seq<ModuleInfo>, minState: ServerState, peer: PeerId, state: ServerState, u: nat)
    requires StartsAt(infos, u) && Declares(infos, peer, state, u, u + |infos|) && minState.Rank() <= state.Rank()
    ensures SpanOf(infos, minState, peer) == Some(Span(peer, 0, |infos|, infos[0].servers[peer]))
  {
    DeclaredSpan(infos, minState, peer, state, u, u, u + |infos|);
  }

  // ---------------------------------------------------------------- moving the window

  function Plus(bound: Option<nat>, k: nat): Option<nat> {
    if bound.Some? then Some(bound.value + k) else None
  }

  function MovedInfo(info: ServerInfo, k: nat): ServerInfo {
    info.(startBlock := Plus(info.startBlock, k), endBlock := Plus(info.endBlock, k))
  }

  function MovedModule(m: ModuleInfo, k: nat): ModuleInfo {
    ModuleInfo(Plus(m.uidNumber, k), map p | p in m.servers :: MovedInfo(m.servers[p], k))
  }

  /** The same announcements, `k` blocks further on in the model. */
  function Moved(infos: seq<ModuleInfo>, k: nat): (r: seq<ModuleInfo>)
    ensures |r| == |infos| && forall b :: 0 <= b < |infos| ==> r[b] == MovedModule(infos[b], k)
  {
    seq(|infos|, b requires 0 <= b < |infos| => MovedModule(infos[b], k))
  }

  function MovedSpan(s: Option<Span>, k: nat): Option<Span> {
    if s.Some? then Some(s.value.(info := MovedInfo(s.value.info, k))) else None
  }

  lemma RangesMove(infos: seq<ModuleInfo>, info: ServerInfo, k: nat)
    requires infos != [] && infos[0].uidNumber.Some? && infos[0].uidNumber.value + k < 4294967296 && Declared(info)
    ensures Declared(MovedInfo(info, k))
    ensures Lo(Moved(infos, k), MovedInfo(info, k)) == Lo(infos, info)
    ensures Hi(Moved(infos, k), MovedInfo(info, k)) == Hi(infos, info)
  {
  }

  lemma {:induction false} SpansMoveUpTo(infos: seq<ModuleInfo>, minState: ServerState, peer: PeerId, k: nat, b: nat)
    requires infos != [] && infos[0].uidNumber.Some? && infos[0].uidNumber.value + k < 4294967296 && b <= |infos|
    ensures SpanUpTo(Moved(infos, k), minState, peer, b) == MovedSpan(SpanUpTo(infos, minState, peer, b), k)
  {
    hide SpanUpTo, Visit, Eligible, Moved, MovedInfo;
    NoSpanYet(infos, minState, peer);
    NoSpanYet(Moved(infos, k), minState, peer);
    if b > 0 {
      SpansMoveUpTo(infos, minState, peer, k, b - 1);
      EligibleMoves(infos, minState, peer, k, b - 1);
      SpanStep(infos, minState, peer, b - 1);
      SpanStep(Moved(infos, k), minState, peer, b - 1);
      if Eligible(infos, minState, peer, b - 1) {
        VisitMoves(infos, SpanUpTo(infos, minState, peer, b - 1), peer, b - 1, infos[b - 1].servers[peer], k);
      }
    }
  }

  lemma NoSpanYet(infos: seq<ModuleInfo>, minState: ServerState, peer: PeerId)
    ensures SpanUpTo(infos, minState, peer, 0) == None
  {
  }

  lemma EligibleMoves(infos: seq<ModuleInfo>, minState: ServerState, peer: PeerId, k: nat, b: nat)
    requires b < |infos|
    ensures Eligible(Moved(infos, k), minState, peer, b) <==> Eligible(infos, minState, peer, b)
    ensures Eligible(infos, minState, peer, b) ==>
              && peer in infos[b].servers && peer in Moved(infos, k)[b].servers
              && Moved(infos, k)[b].servers[peer] == MovedInfo(infos[b].servers[peer], k)
  {
  }

  lemma VisitMoves(infos: seq<ModuleInfo>, entry: Option<Span>, peer: PeerId, b: nat, info: ServerInfo, k: nat)
    requires infos != [] && infos[0].uidNumber.Some? && infos[0].uidNumber.value + k < 4294967296
    ensures Some(Visit(Moved(infos, k), MovedSpan(entry, k), peer, b, MovedInfo(info, k))) ==
              MovedSpan(Some(Visit(infos, entry, peer, b, info)), k)
  {
    if Declared(info) {
      RangesMove(infos, info, k);
    }
  }

  /** Adding `k` to the uid numbers and to all declared bounds, within 32 bits, leaves the start
      and the end of every span as they were. */
  lemma SpansMove(infos: seq<ModuleInfo>, minState: ServerState, peer: PeerId, k: nat)
    requires infos != [] && infos[0].uidNumber.Some? && infos[0].uidNumber.value + k < 4294967296
    ensures var before, after := SpanOf(infos, minState, peer), SpanOf(Moved(infos, k), minState, peer);
            && (before.Some? <==> after.Some?)
            && (before.Some? ==> after.value.start == before.value.start && after.value.end == before.value.end)
  {
    SpansMoveUpTo(infos, minState, peer, k, |infos|);
  }
}
