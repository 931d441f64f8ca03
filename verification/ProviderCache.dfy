/**
 The cache of layer providers with time-based expiry, against the plain log of what was
 inserted and evicted.  Every reading of the clock is a parameter.
 */
module ProviderCache {
  import opened Common

  type Layer = nat
  type Time = nat

  datatype Entry = Entry(peer: PeerId, at: Time)

  /** The time that has passed, saturating at zero. */
  function Age(e: Entry, now: Time): Time {
    if now < e.at then 0 else now - e.at
  }

  /** The entries that are not expired. */
  function Fresh(entries: seq<Entry>, ttl: Time, now: Time): seq<Entry> {
    if entries == [] then []
    else
      var e := entries[|entries| - 1];
      Fresh(entries[..|entries| - 1], ttl, now) + if Age(e, now) < ttl then [e] else []
  }

  function Without(entries: seq<Entry>, peer: PeerId): seq<Entry> {
    if entries == [] then []
    else
      var e := entries[|entries| - 1];
      Without(entries[..|entries| - 1], peer) + if e.peer == peer then [] else [e]
  }

  /** The peers of the entries, but for those in `exclude`. */
  function Peers(entries: seq<Entry>, exclude: set<PeerId>): seq<PeerId> {
    if entries == [] then []
    else
      var e := entries[|entries| - 1];
      Peers(entries[..|entries| - 1], exclude) + if e.peer in exclude then [] else [e.peer]
  }

  // ---------------------------------------------------------------- the log

  datatype Event = Inserted(layer: Layer, peer: PeerId, at: Time) | Evicted(layer: Layer, peer: PeerId)

  /** The entries of a layer that were inserted and not evicted since, nothing being expired. */
  function History(log: seq<Event>, layer: Layer): seq<Entry> {
    if log == [] then []
    else
      var before := History(log[..|log| - 1], layer);
      match log[|log| - 1]
      case Inserted(l, peer, at) => if l == layer then before + [Entry(peer, at)] else before
      case Evicted(l, peer) => if l == layer then Without(before, peer) else before
  }

  /** Event `i` inserted a provider of the layer that no later event evicted. */
  ghost predicate Stands(log: seq<Event>, layer: Layer, i: nat) {
    && i < |log| && log[i].Inserted? && log[i].layer == layer
    && forall j :: i < j < |log| ==> log[j] != Evicted(layer, log[i].peer)
  }

  /** So it stands, its provider is not excluded, and less than `ttl` has passed since. */
  ghost predicate FreshAt(log: seq<Event>, layer: Layer, i: nat, exclude: set<PeerId>, ttl: Time, now: Time) {
    Stands(log, layer, i) && log[i].peer !in exclude && ttl > 0 && now < log[i].at + ttl
  }

  ghost predicate EarliestAt(log: seq<Event>, layer: Layer, i: nat, exclude: set<PeerId>, ttl: Time, now: Time) {
    FreshAt(log, layer, i, exclude, ttl, now) && forall j: nat :: j < i ==> !FreshAt(log, layer, j, exclude, ttl, now)
  }

  /** What the plain log answers. */
  function Answer(log: seq<Event>, layer: Layer, exclude: set<PeerId>, ttl: Time, now: Time): seq<PeerId> {
    Peers(Fresh(History(log, layer), ttl, now), exclude)
  }

  // ---------------------------------------------------------------- the cache

  class ProviderCache {
    const ttl: Time
    var providers: map<Layer, seq<Entry>>
    ghost var log: seq<Event>
    ghost var clock: Time             // no earlier than any reading so far

    ghost function Entries(layer: Layer): seq<Entry>
      reads this
    {
      if layer in providers then providers[layer] else []
    }

    /** From now on, the cache and the log agree on what is fresh. */
    ghost predicate Valid()
      reads this
    {
      forall layer: Layer :: Agrees(Entries(layer), History(log, layer), ttl, clock)
    }

    constructor (ttl: Time)
      ensures Valid() && this.ttl == ttl && log == [] && clock == 0 && providers == map[]
    {
      this.ttl := ttl;
      providers := map[];
      log := [];
      clock := 0;
    }

    method Insert(layer: Layer, peer: PeerId, now: Time)
      requires Valid() && clock <= now
      modifies this
      ensures Valid() && clock == now && log == old(log) + [Inserted(layer, peer, now)]
    {
      var before := if layer in providers then providers[layer] else [];
      providers := providers[layer := before + [Entry(peer, now)]];
      log := log + [Inserted(layer, peer, now)];
      clock := now;
      forall l: Layer ensures Agrees(Entries(l), History(log, l), ttl, clock) {
        AgreesLater(old(Entries(l)), History(old(log), l), ttl, old(clock), now);
        if l == layer {
          AgreesAppended(before, History(old(log), l), ttl, now, Entry(peer, now));
        }
      }
    }

    method Evict(layer: Layer, peer: PeerId)
      requires Valid()
      modifies this
      ensures Valid() && clock == old(clock) && log == old(log) + [Evicted(layer, peer)]
    {
      if layer in providers {
        providers := providers[layer := Without(providers[layer], peer)];
      }
      log := log + [Evicted(layer, peer)];
      forall l: Layer ensures Agrees(Entries(l), History(log, l), ttl, clock) {
        if l == layer {
          AgreesWithout(old(Entries(l)), History(old(log), l), ttl, clock, peer);
        }
      }
    }

    /** The expired entries are dropped, and then the layers without entries, in any order. */
    method PruneExpired(now: Time)
      requires Valid() && clock <= now
      modifies this
      ensures Valid() && clock == now && log == old(log)
      ensures forall layer :: layer in providers <==> layer in old(providers) && Fresh(old(providers)[layer], ttl, now) != []
      ensures forall layer :: layer in providers ==> providers[layer] == Fresh(old(providers)[layer], ttl, now)
    {
      clock := now;
      var rest := providers.Keys;
      while rest != {}
        invariant clock == now && log == old(log)
        invariant rest <= providers.Keys && providers.Keys <= old(providers).Keys
        invariant forall l :: l in rest ==> providers[l] == old(providers)[l]
        invariant forall l :: l in old(providers) && l !in rest ==>
                    (l in providers <==> Fresh(old(providers)[l], ttl, now) != [])
        invariant forall l :: l in providers && l !in rest ==> providers[l] == Fresh(old(providers)[l], ttl, now)
        decreases rest
      {
        var l :| l in rest;
        var kept := Fresh(providers[l], ttl, now);
        providers := if kept == [] then providers - {l} else providers[l := kept];
        rest := rest - {l};
      }
      forall l: Layer ensures Agrees(Entries(l), History(log, l), ttl, clock) {
        AgreesPruned(old(Entries(l)), History(log, l), ttl, old(clock), now);
      }
    }

    method GetExcluding(layer: Layer, exclude: set<PeerId>, now: Time) returns (peers: seq<PeerId>)
      requires Valid() && clock <= now
      ensures peers == Answer(log, layer, exclude, ttl, now)
    {
      peers := if layer in providers then Peers(Fresh(providers[layer], ttl, now), exclude) else [];
      assert Agrees(Entries(layer), History(log, layer), ttl, clock);
      assert Fresh(Entries(layer), ttl, now) == Fresh(History(log, layer), ttl, now);
    }

    /** The clock is read once for each layer. */
    method BuildChain(layers: seq<Layer>, exclude: set<PeerId>, readings: seq<Time>) returns (chain: Option<seq<PeerId>>)
      requires Valid() && |readings| == |layers| && forall i :: 0 <= i < |readings| ==> clock <= readings[i]
      ensures chain.Some? <==> forall i :: 0 <= i < |layers| ==> Answer(log, layers[i], exclude, ttl, readings[i]) != []
      ensures chain.Some? ==> |chain.value| == |layers|
      ensures chain.Some? ==> forall i :: 0 <= i < |layers| ==>
                Answer(log, layers[i], exclude, ttl, readings[i]) != [] &&
                chain.value[i] == Answer(log, layers[i], exclude, ttl, readings[i])[0]
    {
      var found := [];
      for i := 0 to |layers|
        invariant |found| == i
        invariant forall j :: 0 <= j < i ==>
                    Answer(log, layers[j], exclude, ttl, readings[j]) != [] &&
                    found[j] == Answer(log, layers[j], exclude, ttl, readings[j])[0]
      {
        var candidates := GetExcluding(layers[i], exclude, readings[i]);
        if candidates == [] {
          return None;
        }
        found := found + [candidates[0]];
      }
      chain := Some(found);
    }
  }

  // ---------------------------------------------------------------- agreement

  ghost predicate Agrees(entries: seq<Entry>, history: seq<Entry>, ttl: Time, clock: Time) {
    forall now: Time :: clock <= now ==> Fresh(entries, ttl, now) == Fresh(history, ttl, now)
  }

  lemma AgreesLater(entries: seq<Entry>, history: seq<Entry>, ttl: Time, clock: Time, now: Time)
    requires Agrees(entries, history, ttl, clock) && clock <= now
    ensures Agrees(entries, history, ttl, now)
  {
  }

  lemma FreshAppended(entries: seq<Entry>, e: Entry, ttl: Time, now: Time)
    ensures Fresh(entries + [e], ttl, now) == Fresh(entries, ttl, now) + if Age(e, now) < ttl then [e] else []
  {
    assert (entries + [e])[..|entries|] == entries;
  }

  lemma AgreesAppended(entries: seq<Entry>, history: seq<Entry>, ttl: Time, clock: Time, e: Entry)
    requires Agrees(entries, history, ttl, clock)
    ensures Agrees(entries + [e], history + [e], ttl, clock)
  {
    forall now: Time | clock <= now ensures Fresh(entries + [e], ttl, now) == Fresh(history + [e], ttl, now) {
      FreshAppended(entries, e, ttl, now);
      FreshAppended(history, e, ttl, now);
    }
  }

  lemma WithoutAppended(entries: seq<Entry>, e: Entry, peer: PeerId)
    ensures Without(entries + [e], peer) == Without(entries, peer) + if e.peer == peer then [] else [e]
  {
    assert (entries + [e])[..|entries|] == entries;
  }

  /** Evicting and expiring commute. */
  lemma {:induction false} FreshWithout(entries: seq<Entry>, ttl: Time, now: Time, peer: PeerId)
    ensures Fresh(Without(entries, peer), ttl, now) == Without(Fresh(entries, ttl, now), peer)
  {
    if entries != [] {
      var front, e := entries[..|entries| - 1], entries[|entries| - 1];
      FreshWithout(front, ttl, now, peer);
      FreshAppended(Without(front, peer), e, ttl, now);
      WithoutAppended(Fresh(front, ttl, now), e, peer);
      assert Without(front, peer) + [] == Without(front, peer) && Fresh(front, ttl, now) + [] == Fresh(front, ttl, now);
    }
  }

  lemma AgreesWithout(entries: seq<Entry>, history: seq<Entry>, ttl: Time, clock: Time, peer: PeerId)
    requires Agrees(entries, history, ttl, clock)
    ensures Agrees(Without(entries, peer), Without(history, peer), ttl, clock)
  {
    forall now: Time | clock <= now
      ensures Fresh(Without(entries, peer), ttl, now) == Fresh(Without(history, peer), ttl, now)
    {
      FreshWithout(entries, ttl, now, peer);
      FreshWithout(history, ttl, now, peer);
    }
  }

  /** What is expired stays expired. */
  lemma {:induction false} FreshLater(entries: seq<Entry>, ttl: Time, clock: Time, now: Time)
    requires clock <= now
    ensures Fresh(Fresh(entries, ttl, clock), ttl, now) == Fresh(entries, ttl, now)
  {
    if entries != [] {
      var front, e := entries[..|entries| - 1], entries[|entries| - 1];
      FreshLater(front, ttl, clock, now);
      FreshAppended(Fresh(front, ttl, clock), e, ttl, now);
      assert Fresh(front, ttl, clock) + [] == Fresh(front, ttl, clock);
    }
  }

  lemma AgreesPruned(entries: seq<Entry>, history: seq<Entry>, ttl: Time, clock: Time, now: Time)
    requires Agrees(entries, history, ttl, clock) && clock <= now
    ensures Agrees(Fresh(entries, ttl, now), history, ttl, now)
  {
    forall later: Time | now <= later
      ensures Fresh(Fresh(entries, ttl, now), ttl, later) == Fresh(history, ttl, later)
    {
      FreshLater(entries, ttl, now, later);
    }
  }

  // ---------------------------------------------------------------- what the log answers

  /** The events behind a layer's history, in the order of the log. */
  lemma {:induction false} HistoryStands(log: seq<Event>, layer: Layer) returns (order: seq<nat>)
    ensures Recounts(log, History(log, layer), order) && StandIn(log, layer, order)
  {
    hide Recounts, StandIn, Without;
    if log == [] {
      order := [];
      NothingStands(layer);
    } else {
      var front, e := log[..|log| - 1], log[|log| - 1];
      assert log == front + [e];
      var earlier := HistoryStands(front, layer);
      StandsStep(front, layer, e, earlier);
      if e.layer == layer && e.Evicted? {
        order := EvictedOrder(front, e.peer, History(front, layer), earlier);
        EvictedStand(front, layer, e, earlier, order);
        RecountsLonger(front, History(log, layer), order, e);
      } else if e.layer == layer {
        order := earlier + [|front|];
        RecountsInserted(front, History(front, layer), earlier, e);
      } else {
        order := earlier;
        RecountsLonger(front, History(log, layer), order, e);
      }
    }
  }

  /** `order` holds the insertions that stand. */
  ghost predicate StandIn(log: seq<Event>, layer: Layer, order: seq<nat>) {
    forall i: nat :: Stands(log, layer, i) <==> i in order
  }

  lemma NothingStands(layer: Layer)
    ensures Recounts([], [], []) && StandIn([], layer, [])
  {
  }

  lemma RecountsLonger(log: seq<Event>, entries: seq<Entry>, order: seq<nat>, e: Event)
    requires Recounts(log, entries, order)
    ensures Recounts(log + [e], entries, order)
  {
  }

  lemma RecountsInserted(log: seq<Event>, entries: seq<Entry>, order: seq<nat>, e: Event)
    requires Recounts(log, entries, order) && e.Inserted?
    ensures Recounts(log + [e], entries + [Entry(e.peer, e.at)], order + [|log|])
  {
  }

  lemma StandsStep(log: seq<Event>, layer: Layer, e: Event, order: seq<nat>)
    requires StandIn(log, layer, order)
    ensures e.layer != layer ==> StandIn(log + [e], layer, order)
    ensures e.layer == layer && e.Inserted? ==> StandIn(log + [e], layer, order + [|log|])
  {
    forall i: nat
      ensures e.Inserted? || e.layer != layer ==>
                (Stands(log + [e], layer, i) <==>
                   if i == |log| then e.Inserted? && e.layer == layer else Stands(log, layer, i))
    {
      StandsBefore(log, layer, e, i);
    }
  }

  lemma EvictedStand(log: seq<Event>, layer: Layer, e: Event, order: seq<nat>, kept: seq<nat>)
    requires StandIn(log, layer, order) && e.layer == layer && e.Evicted? && forall i :: i in order ==> i < |log|
    requires forall i :: i in kept <==> i in order && log[i].peer != e.peer
    ensures StandIn(log + [e], layer, kept)
  {
    forall i: nat ensures Stands(log + [e], layer, i) <==> i in kept {
      StandsBefore(log, layer, e, i);
    }
  }

  /** One more event: what it inserts stands, and what it evicts does not stand any more. */
  lemma StandsBefore(log: seq<Event>, layer: Layer, e: Event, i: nat)
    ensures Stands(log + [e], layer, i) <==>
              if i == |log| then e.Inserted? && e.layer == layer
              else Stands(log, layer, i) && e != Evicted(layer, log[i].peer)
  {
    var longer := log + [e];
    assert longer[|log|] == e && forall j :: 0 <= j < |log| ==> longer[j] == log[j];
    if i < |log| && Stands(log, layer, i) && e != Evicted(layer, log[i].peer) {
      forall j | i < j < |longer| ensures longer[j] != Evicted(layer, longer[i].peer) {
        assert j == |log| ==> longer[j] == e;
      }
    }
  }

  /** `order` lists the insertions behind `entries`, from the earliest to the latest. */
  ghost predicate Recounts(log: seq<Event>, entries: seq<Entry>, order: seq<nat>) {
    && |order| == |entries|
    && (forall k :: 0 <= k < |order| ==>
          order[k] < |log| && log[order[k]].Inserted? && entries[k] == Entry(log[order[k]].peer, log[order[k]].at))
    && forall k, l :: 0 <= k < l < |order| ==> order[k] < order[l]
  }

  lemma {:induction false} EvictedOrder(log: seq<Event>, peer: PeerId, entries: seq<Entry>, order: seq<nat>)
    returns (kept: seq<nat>)
    requires Recounts(log, entries, order)
    ensures Recounts(log, Without(entries, peer), kept)
    ensures forall i :: i in order ==> i < |log|
    ensures forall i :: i in kept <==> i in order && log[i].peer != peer
  {
    if order == [] {
      kept := [];
    } else {
      var n := |order| - 1;
      kept := EvictedOrder(log, peer, entries[..n], order[..n]);
      if entries[n].peer != peer {
        kept := kept + [order[n]];
      }
    }
  }

  /** The first provider that the log answers is that of the earliest insertion that stands, is
      fresh and is not excluded; there is an answer exactly when there is such an insertion. */
  lemma AnswerIsEarliest(log: seq<Event>, layer: Layer, exclude: set<PeerId>, ttl: Time, now: Time)
    ensures Answer(log, layer, exclude, ttl, now) != [] <==> exists i: nat :: FreshAt(log, layer, i, exclude, ttl, now)
    ensures forall i: nat :: EarliestAt(log, layer, i, exclude, ttl, now) ==>
              Answer(log, layer, exclude, ttl, now) != [] && Answer(log, layer, exclude, ttl, now)[0] == log[i].peer
  {
    var order := HistoryStands(log, layer);
    var history := History(log, layer);
    FirstAnswer(history, exclude, ttl, now);
    if Answer(log, layer, exclude, ttl, now) != [] {
      var k := FirstFit(history, exclude, ttl, now);
      assert FreshAt(log, layer, order[k], exclude, ttl, now);
      forall i: nat | EarliestAt(log, layer, i, exclude, ttl, now) ensures log[i].peer == history[k].peer
      {
        var l :| 0 <= l < |order| && order[l] == i;
        assert Fits(history[l], exclude, ttl, now);
        assert k <= l;
      }
    } else {
      forall i: nat | Stands(log, layer, i) ensures !FreshAt(log, layer, i, exclude, ttl, now) {
        var l :| 0 <= l < |order| && order[l] == i;
        assert !Fits(history[l], exclude, ttl, now);
      }
    }
  }

  predicate Fits(e: Entry, exclude: set<PeerId>, ttl: Time, now: Time) {
    ttl > 0 && now < e.at + ttl && e.peer !in exclude
  }

  /** The position of the first entry that fits, or the length. */
  function FirstFit(entries: seq<Entry>, exclude: set<PeerId>, ttl: Time, now: Time): (k: nat)
    ensures k <= |entries| && (k < |entries| ==> Fits(entries[k], exclude, ttl, now))
    ensures forall l :: 0 <= l < k ==> !Fits(entries[l], exclude, ttl, now)
  {
    if entries == [] then 0
    else
      var k := FirstFit(entries[..|entries| - 1], exclude, ttl, now);
      if k < |entries| - 1 || Fits(entries[|entries| - 1], exclude, ttl, now) then k else |entries|
  }

  lemma {:induction false} FirstAnswer(entries: seq<Entry>, exclude: set<PeerId>, ttl: Time, now: Time)
    ensures var k, peers := FirstFit(entries, exclude, ttl, now), Peers(Fresh(entries, ttl, now), exclude);
            && (peers == [] <==> k == |entries|)
            && (peers != [] ==> peers[0] == entries[k].peer)
  {
    if entries != [] {
      var front, e := entries[..|entries| - 1], entries[|entries| - 1];
      FirstAnswer(front, exclude, ttl, now);
      PeersAppended(Fresh(front, ttl, now), e, exclude);
      assert Fresh(front, ttl, now) + [] == Fresh(front, ttl, now);
    }
  }

  /** The answer in full: the providers of exactly the insertions that stand, are fresh and are not
      excluded, from the earliest to the latest. */
  lemma AnswerLists(log: seq<Event>, layer: Layer, exclude: set<PeerId>, ttl: Time, now: Time) returns (order: seq<nat>)
    ensures Lists(log, Answer(log, layer, exclude, ttl, now), order)
    ensures forall i: nat :: i in order <==> FreshAt(log, layer, i, exclude, ttl, now)
  {
    var all := HistoryStands(log, layer);
    order := FreshOrder(log, History(log, layer), all, exclude, ttl, now);
    forall i: nat ensures i in order <==> FreshAt(log, layer, i, exclude, ttl, now) {
      assert i in all <==> Stands(log, layer, i);
    }
  }

  /** `order` lists the insertions behind `peers`, from the earliest to the latest. */
  ghost predicate Lists(log: seq<Event>, peers: seq<PeerId>, order: seq<nat>) {
    && |order| == |peers|
    && (forall k :: 0 <= k < |order| ==> order[k] < |log| && log[order[k]].Inserted? && peers[k] == log[order[k]].peer)
    && forall k, l :: 0 <= k < l < |order| ==> order[k] < order[l]
  }

  lemma {:induction false} FreshOrder(log: seq<Event>, entries: seq<Entry>, order: seq<nat>, exclude: set<PeerId>,
                                      ttl: Time, now: Time)
    returns (kept: seq<nat>)
    requires Recounts(log, entries, order)
    ensures Lists(log, Peers(Fresh(entries, ttl, now), exclude), kept)
    ensures forall i :: i in order ==> i < |log| && log[i].Inserted?
    ensures forall i :: i in kept <==> i in order && Fits(Entry(log[i].peer, log[i].at), exclude, ttl, now)
  {
    if order == [] {
      kept := [];
    } else {
      var n := |order| - 1;
      kept := FreshOrder(log, entries[..n], order[..n], exclude, ttl, now);
      PeersAppended(Fresh(entries[..n], ttl, now), entries[n], exclude);
      assert Fresh(entries[..n], ttl, now) + [] == Fresh(entries[..n], ttl, now);
      if Fits(entries[n], exclude, ttl, now) {
        kept := kept + [order[n]];
      }
    }
  }

  lemma PeersAppended(entries: seq<Entry>, e: Entry, exclude: set<PeerId>)
    ensures Peers(entries + [e], exclude) == Peers(entries, exclude) + if e.peer in exclude then [] else [e.peer]
  {
    assert (entries + [e])[..|entries|] == entries;
  }
}
