/**
 Runs of the streaming client that get somewhere: discovery finds a chain, every payload can be
 answered, up to three failures can be survived, and a fourth cannot.
 */
module StreamLiveness {
  import opened Common
  import F = Forwarding
  import opened StreamClient

  // ---------------------------------------------------------------- runs from any state

  /** `steps` lead from `s` to `t`. */
  ghost predicate Leads(s: System, layers: seq<Layer>, limit: nat, steps: seq<Step>, t: System)
    decreases |steps|
  {
    if steps == [] then s == t
    else Enabled(s, steps[0]) && Leads(AfterStep(s, layers, limit, steps[0]), layers, limit, steps[1..], t)
  }

  lemma LeadsStep(s: System, layers: seq<Layer>, limit: nat, step: Step)
    requires Enabled(s, step)
    ensures Leads(s, layers, limit, [step], AfterStep(s, layers, limit, step))
  {
    hide AfterStep, Enabled;
    assert [step][1..] == [];
  }

  lemma {:induction false} LeadsOn(s: System, layers: seq<Layer>, limit: nat, xs: seq<Step>, t: System, ys: seq<Step>, u: System)
    requires Leads(s, layers, limit, xs, t) && Leads(t, layers, limit, ys, u)
    ensures Leads(s, layers, limit, xs + ys, u)
    decreases |xs|
  {
    hide AfterStep, Enabled;
    if xs == [] {
      assert xs + ys == ys;
    } else {
      LeadsOn(AfterStep(s, layers, limit, xs[0]), layers, limit, xs[1..], t, ys, u);
      assert (xs + ys)[1..] == xs[1..] + ys;
    }
  }

  /** What leads on from the end of a run is a run. */
  lemma {:induction false} LeadsIsRun(layers: seq<Layer>, limit: nat, run: seq<Step>, steps: seq<Step>, t: System)
    requires Possible(layers, limit, run) && Leads(After(layers, limit, run), layers, limit, steps, t)
    ensures Possible(layers, limit, run + steps) && After(layers, limit, run + steps) == t
    decreases |steps|
  {
    hide AfterStep, Enabled;
    if steps == [] {
      assert run + steps == run;
    } else {
      var next := run + [steps[0]];
      assert next[..|next| - 1] == run;
      LeadsIsRun(layers, limit, next, steps[1..], t);
      assert run + steps == next + steps[1..];
    }
  }

  // ---------------------------------------------------------------- discovery

  ghost predicate Distinct(layers: seq<Layer>) {
    forall i, j :: 0 <= i < j < |layers| ==> layers[i] != layers[j]
  }

  /** The providers known when peers have been found for the first `i` layers. */
  function Learned(layers: seq<Layer>, peers: seq<PeerId>, i: nat): map<Layer, PeerId>
    requires i <= |layers| == |peers|
  {
    if i == 0 then map[] else Learned(layers, peers, i - 1)[layers[i - 1] := peers[i - 1]]
  }

  /** The queries for the layers from the `i`th on. */
  function Left(layers: seq<Layer>, q0: QueryId, i: nat): (m: map<QueryId, Layer>)
    ensures forall q :: q in m <==> q0 + i <= q < q0 + |layers|
    ensures forall q :: q in m ==> m[q] == layers[q - q0]
    decreases |layers| - i
  {
    if i >= |layers| then map[] else Left(layers, q0, i + 1)[q0 + i := layers[i]]
  }

  lemma {:induction false} AllQueriesLeft(layers: seq<Layer>, q0: QueryId)
    ensures NewQueries(layers, q0) == Left(layers, q0, 0)
  {
    if layers != [] {
      AllQueriesLeft(layers[..|layers| - 1], q0);
    }
  }

  lemma {:induction false} LearnedAt(layers: seq<Layer>, peers: seq<PeerId>, i: nat, j: nat)
    requires j < i <= |layers| == |peers| && Distinct(layers)
    ensures layers[j] in Learned(layers, peers, i) && Learned(layers, peers, i)[layers[j]] == peers[j]
  {
    if j < i - 1 {
      LearnedAt(layers, peers, i - 1, j);
    }
  }

  lemma AllLearned(layers: seq<Layer>, peers: seq<PeerId>)
    requires |layers| == |peers| && Distinct(layers)
    ensures forall l :: l in layers ==> l in Learned(layers, peers, |layers|)
    ensures Resolve(Learned(layers, peers, |layers|), layers) == peers
  {
    forall j: nat | j < |layers|
      ensures layers[j] in Learned(layers, peers, |layers|) && Learned(layers, peers, |layers|)[layers[j]] == peers[j]
    {
      LearnedAt(layers, peers, |layers|, j);
    }
  }

  /** The client has started over, or has only started. */
  ghost predicate Fresh(c: Client) {
    && c.status.Running? && c.pendingQueries == map[] && c.providers == map[] && !c.chainBuilt && !c.queriesSent
  }

  /** Peers are found for the first `i` layers, and nothing else has changed since `c`. */
  function Searching(c: Client, layers: seq<Layer>, peers: seq<PeerId>, q0: QueryId, i: nat): Client
    requires i <= |layers| == |peers|
  {
    c.(bootstrapped := true, queriesSent := true, providers := Learned(layers, peers, i),
       pendingQueries := Left(layers, q0, i))
  }

  /** What discovery does not touch. */
  ghost predicate SameElsewhere(s: System, t: System) {
    && t.producer == s.producer && t.requests == s.requests && t.answers == s.answers
    && t.outstanding == s.outstanding && t.nextRequest == s.nextRequest
    && t.taken == s.taken && t.given == s.given && t.log == s.log
  }

  lemma AsksForAll(s: System, layers: seq<Layer>, peers: seq<PeerId>, limit: nat) returns (t: System)
    requires Fresh(s.client) && layers != [] && |peers| == |layers|
    ensures Enabled(s, Kad(NewPeer)) && t == AfterStep(s, layers, limit, Kad(NewPeer))
    ensures SameElsewhere(s, t) && t.client == Searching(s.client, layers, peers, s.nextQuery, 0)
  {
    t := AfterStep(s, layers, limit, Kad(NewPeer));
    AllQueriesLeft(layers, s.nextQuery);
    var asked := SendQueries(Discover(s.client, NewPeer), layers, s.nextQuery);
    assert asked == Searching(s.client, layers, peers, s.nextQuery, 0);
    assert s.nextQuery in asked.pendingQueries;
  }

  /** The event that the peer for layer `i` is found. */
  function Finds(peers: seq<PeerId>, q0: QueryId, i: nat): Step
    requires i < |peers|
  {
    Kad(FoundProviders(q0 + i, [peers[i]]))
  }

  lemma Learns(c: Client, layers: seq<Layer>, peers: seq<PeerId>, q0: QueryId, i: nat)
    requires Fresh(c) && i < |layers| == |peers|
    ensures Discover(Searching(c, layers, peers, q0, i), FoundProviders(q0 + i, [peers[i]])) ==
              Searching(c, layers, peers, q0, i + 1)
  {
    assert Left(layers, q0, i) - {q0 + i} == Left(layers, q0, i + 1);
  }

  lemma FindsOne(s: System, layers: seq<Layer>, peers: seq<PeerId>, limit: nat, c: Client, q0: QueryId, i: nat)
    returns (t: System)
    requires Fresh(c) && i + 1 < |layers| == |peers| && s.client == Searching(c, layers, peers, q0, i)
    ensures Enabled(s, Finds(peers, q0, i)) && t == AfterStep(s, layers, limit, Finds(peers, q0, i))
    ensures SameElsewhere(s, t) && t.client == Searching(c, layers, peers, q0, i + 1)
  {
    t := AfterStep(s, layers, limit, Finds(peers, q0, i));
    Learns(c, layers, peers, q0, i);
    assert q0 + i + 1 in Left(layers, q0, i + 1);
  }

  lemma {:induction false} FindsMany(s: System, layers: seq<Layer>, peers: seq<PeerId>, limit: nat, i: nat)
    returns (steps: seq<Step>, t: System)
    requires Fresh(s.client) && i < |layers| == |peers|
    ensures Leads(s, layers, limit, steps, t) && forall j :: 0 <= j < |steps| ==> steps[j].Kad?
    ensures SameElsewhere(s, t) && t.client == Searching(s.client, layers, peers, s.nextQuery, i)
  {
    hide AfterStep, Enabled, Searching, Fresh;
    if i == 0 {
      t := AsksForAll(s, layers, peers, limit);
      steps := [Kad(NewPeer)];
      LeadsStep(s, layers, limit, Kad(NewPeer));
    } else {
      var front, u := FindsMany(s, layers, peers, limit, i - 1);
      t := FindsOne(u, layers, peers, limit, s.client, s.nextQuery, i - 1);
      var step := Finds(peers, s.nextQuery, i - 1);
      LeadsStep(u, layers, limit, step);
      LeadsOn(s, layers, limit, front, u, [step], t);
      steps := front + [step];
    }
  }

  /** The client has the chain of `peers`; a queued payload has been sent along it. */
  ghost predicate FindsChain(s: System, peers: seq<PeerId>, t: System) {
    && t.client.status.Running? && t.client.chainBuilt && t.client.chain == F.Dedup(peers)
    && t.client.retryCount == s.client.retryCount && t.client.pendingPayload == None && t.client.pendingQueries == map[]
    && t.producer == s.producer && t.requests == s.requests && t.answers == s.answers && t.given == s.given
    && match s.client.pendingPayload
       case None =>
         && t.client.inflightPayload == s.client.inflightPayload && t.log == s.log && t.outstanding == s.outstanding
       case Some(k) =>
         && t.client.inflightPayload == Some(k)
         && t.log == s.log + [(Sent(F.Dedup(peers), k), s.client.retryCount)]
         && t.outstanding == s.outstanding[s.nextRequest := k]
  }

  lemma FindsLast(s: System, layers: seq<Layer>, peers: seq<PeerId>, limit: nat, s0: System)
    returns (t: System)
    requires Fresh(s0.client) && layers != [] && |layers| == |peers| && Distinct(layers) && SameElsewhere(s0, s)
    requires s.client == Searching(s0.client, layers, peers, s0.nextQuery, |layers| - 1)
    ensures var step := Finds(peers, s0.nextQuery, |layers| - 1);
            Enabled(s, step) && t == AfterStep(s, layers, limit, step)
    ensures FindsChain(s0, peers, t)
  {
    var n, q0 := |layers|, s0.nextQuery;
    var e := FoundProviders(q0 + n - 1, [peers[n - 1]]);
    t := AfterStep(s, layers, limit, Kad(e));
    var s1 := AfterDiscovery(s, layers, e);
    LastFound(s, layers, peers, s0, s1);
    hide AfterDiscovery;
    BuiltChainIsNotEmpty(s1.client, layers);
  }

  /** With the last peer found, the chain of `peers` can be built. */
  lemma LastFound(s: System, layers: seq<Layer>, peers: seq<PeerId>, s0: System, s1: System)
    requires Fresh(s0.client) && layers != [] && |layers| == |peers| && Distinct(layers) && SameElsewhere(s0, s)
    requires s.client == Searching(s0.client, layers, peers, s0.nextQuery, |layers| - 1)
    requires s1 == AfterDiscovery(s, layers, FoundProviders(s0.nextQuery + |layers| - 1, [peers[|layers| - 1]]))
    ensures SameElsewhere(s0, s1) && CanBuild(s1.client, layers) && Resolve(s1.client.providers, layers) == peers
    ensures s1.client == s0.client.(bootstrapped := true, queriesSent := true, pendingQueries := map[],
                                    providers := Learned(layers, peers, |layers|))
  {
    var n, q0 := |layers|, s0.nextQuery;
    Learns(s0.client, layers, peers, q0, n - 1);
    AllLearned(layers, peers);
    assert s1.client == Searching(s0.client, layers, peers, q0, n);
    assert Left(layers, q0, n) == map[];
  }

  /** From a fresh client, discovery can find any peer for each layer, and builds their chain. */
  lemma DiscoveryFindsChain(s: System, layers: seq<Layer>, peers: seq<PeerId>, limit: nat)
    returns (steps: seq<Step>, t: System)
    requires Fresh(s.client) && layers != [] && |layers| == |peers| && Distinct(layers)
    ensures Leads(s, layers, limit, steps, t) && FindsChain(s, peers, t)
  {
    hide AfterStep, Enabled, Searching, Fresh, FindsChain, SameElsewhere;
    var front, u := FindsMany(s, layers, peers, limit, |layers| - 1);
    t := FindsLast(u, layers, peers, limit, s);
    var step := Finds(peers, s.nextQuery, |layers| - 1);
    LeadsStep(u, layers, limit, step);
    LeadsOn(s, layers, limit, front, u, [step], t);
    steps := front + [step];
  }

  // ---------------------------------------------------------------- failures

  /** Payload 0 is in flight along the chain of `peers`, for the `r + 1`st time. */
  ghost predicate Sending(s: System, peers: seq<PeerId>, r: nat) {
    && s.client.status.Running? && s.client.chainBuilt && s.client.chain == F.Dedup(peers) && s.client.retryCount == r
    && s.client.pendingPayload == None && s.client.pendingQueries == map[] && s.client.inflightPayload == Some(0)
    && s.producer == Awaiting(0) && s.requests == None && s.answers == None && s.given == []
    && (exists id :: s.outstanding == map[id := 0] && id in s.outstanding)
    && |s.log| == r + 1 && forall i :: 0 <= i <= r ==> s.log[i] == (Sent(F.Dedup(peers), 0), i)
  }

  lemma FirstPayload(layers: seq<Layer>, limit: nat) returns (s: System)
    requires limit > 0
    ensures Possible(layers, limit, [Produce, Take]) && s == After(layers, limit, [Produce, Take])
    ensures Fresh(s.client) && s.client.pendingPayload == Some(0) && s.client.inflightPayload == None && s.client.retryCount == 0
    ensures s.producer == Awaiting(0) && s.requests == None && s.answers == None && s.given == []
    ensures s.outstanding == map[] && s.log == []
  {
    assert [Produce, Take][..1] == [Produce] && [Produce][..0] == [];
    s := After(layers, limit, [Produce, Take]);
  }

  lemma FailureFreshens(s: System, layers: seq<Layer>, peers: seq<PeerId>, limit: nat, id: nat, r: nat) returns (t: System)
    requires Sending(s, peers, r) && r < 3 && id in s.outstanding
    ensures Enabled(s, Fail(id)) && t == AfterStep(s, layers, limit, Fail(id))
    ensures Fresh(t.client) && t.client.pendingPayload == Some(0) && t.client.retryCount == r + 1
    ensures t.producer == Awaiting(0) && t.requests == None && t.answers == None && t.given == []
    ensures t.outstanding == map[] && t.log == s.log
  {
    t := AfterStep(s, layers, limit, Fail(id));
  }

  /** The run goes on to where the queued payload is sent along a chain just found. */
  lemma SendsAgain(layers: seq<Layer>, peers: seq<PeerId>, limit: nat, run: seq<Step>, r: nat) returns (more: seq<Step>)
    requires layers != [] && |layers| == |peers| && Distinct(layers) && Possible(layers, limit, run)
    requires var s := After(layers, limit, run);
             && Fresh(s.client) && s.client.pendingPayload == Some(0) && s.client.retryCount == r
             && s.producer == Awaiting(0) && s.requests == None && s.answers == None && s.given == []
             && s.outstanding == map[]
             && |s.log| == r && forall i :: 0 <= i < r ==> s.log[i] == (Sent(F.Dedup(peers), 0), i)
    ensures Possible(layers, limit, more) && Sending(After(layers, limit, more), peers, r)
  {
    hide AfterStep, Enabled, Fresh, Possible, After;
    var s := After(layers, limit, run);
    var steps, t := DiscoveryFindsChain(s, layers, peers, limit);
    LeadsIsRun(layers, limit, run, steps, t);
    more := run + steps;
    assert s.nextRequest in t.outstanding;
  }

  /** For up to three failures there is a run that sends payload 0 once more after each of them. */
  lemma {:induction false} FailuresCanBeSurvived(layers: seq<Layer>, peers: seq<PeerId>, limit: nat, r: nat)
    returns (run: seq<Step>)
    requires layers != [] && |layers| == |peers| && Distinct(layers) && limit > 0 && r <= 3
    ensures Possible(layers, limit, run) && Sending(After(layers, limit, run), peers, r)
  {
    if r == 0 {
      var s := FirstPayload(layers, limit);
      run := SendsAgain(layers, peers, limit, [Produce, Take], 0);
    } else {
      hide AfterStep, Enabled, Fresh;
      var before := FailuresCanBeSurvived(layers, peers, limit, r - 1);
      var s := After(layers, limit, before);
      var id :| s.outstanding == map[id := 0] && id in s.outstanding;
      var t := FailureFreshens(s, layers, peers, limit, id, r - 1);
      var failed := before + [Fail(id)];
      assert failed[..|failed| - 1] == before;
      run := SendsAgain(layers, peers, limit, failed, r);
    }
  }

  /** A fourth failure ends the client: it has sent payload 0 four times and answers with an error. */
  lemma FourthFailureEnds(layers: seq<Layer>, peers: seq<PeerId>, limit: nat) returns (run: seq<Step>)
    requires layers != [] && |layers| == |peers| && Distinct(layers) && limit > 0
    ensures Possible(layers, limit, run)
    ensures var s := After(layers, limit, run);
            && s.client.status.Failed? && s.given == [Answer(0, false)] && s.answers == Some(Answer(0, false))
            && |s.log| == 4 && forall i :: 0 <= i < 4 ==> s.log[i] == (Sent(F.Dedup(peers), 0), i)
  {
    var before := FailuresCanBeSurvived(layers, peers, limit, 3);
    var s := After(layers, limit, before);
    var id :| s.outstanding == map[id := 0] && id in s.outstanding;
    run := before + [Fail(id)];
    assert run[..|run| - 1] == before;
  }

  // ---------------------------------------------------------------- answers

  /** The first `k` payloads are answered, all but the first of them sent once and the first
      `r + 1` times, and the producer is ready for the next. */
  ghost predicate Serving(s: System, peers: seq<PeerId>, k: nat, r: nat) {
    && s.client.status.Running? && s.client.chainBuilt && s.client.chain == F.Dedup(peers)
    && s.client.pendingPayload == None && s.client.inflightPayload == None
    && s.producer == Ready(k) && s.requests == None && s.answers == None && s.outstanding == map[]
    && |s.given| == k && (forall i :: 0 <= i < k ==> s.given[i] == Answer(i, true))
    && |s.log| == k + r && forall i :: 0 <= i < k ==> s.log[r + i].0 == Sent(F.Dedup(peers), i)
  }

  lemma FirstAnswer(s: System, layers: seq<Layer>, peers: seq<PeerId>, limit: nat, r: nat)
    returns (steps: seq<Step>, t: System)
    requires Sending(s, peers, r)
    ensures Leads(s, layers, limit, steps, t) && Serving(t, peers, 1, r)
  {
    var id :| s.outstanding == map[id := 0] && id in s.outstanding;
    var s1 := AfterStep(s, layers, limit, Respond(id));
    t := AfterStep(s1, layers, limit, Consume);
    steps := [Respond(id), Consume];
    assert steps[1..] == [Consume];
    LeadsStep(s1, layers, limit, Consume);
  }

  /** The producer sends payload `k` and the client transmits it. */
  lemma NextSent(s: System, layers: seq<Layer>, peers: seq<PeerId>, limit: nat, k: nat, r: nat) returns (t: System)
    requires Serving(s, peers, k, r) && k < limit
    ensures Leads(s, layers, limit, [Produce, Take], t)
    ensures t.client == s.client.(inflightPayload := Some(k)) && t.producer == Awaiting(k) && t.requests == None && t.answers == None
    ensures t.outstanding == map[s.nextRequest := k] && t.given == s.given
    ensures t.log == s.log + [(Sent(F.Dedup(peers), k), s.client.retryCount)]
  {
    var s1 := AfterStep(s, layers, limit, Produce);
    t := AfterStep(s1, layers, limit, Take);
    assert [Produce, Take][1..] == [Take];
    LeadsStep(s1, layers, limit, Take);
  }

  lemma NextAnswered(s: System, layers: seq<Layer>, peers: seq<PeerId>, limit: nat, k: nat, r: nat)
    returns (steps: seq<Step>, t: System)
    requires Serving(s, peers, k, r) && k < limit
    ensures Leads(s, layers, limit, steps, t) && Serving(t, peers, k + 1, r)
  {
    var u := NextSent(s, layers, peers, limit, k, r);
    var id := s.nextRequest;
    var u1 := AfterStep(u, layers, limit, Respond(id));
    t := AfterStep(u1, layers, limit, Consume);
    var tail := [Respond(id), Consume];
    assert tail[1..] == [Consume];
    LeadsStep(u1, layers, limit, Consume);
    assert Leads(u, layers, limit, tail, t);
    LeadsOn(s, layers, limit, [Produce, Take], u, tail, t);
    steps := [Produce, Take] + tail;
  }

  /** With up to three failures at the first payload, there is a run in which every payload is
      answered, along the chain of any peers that discovery may find. */
  lemma {:induction false} AllCanBeAnswered(layers: seq<Layer>, peers: seq<PeerId>, limit: nat, k: nat, r: nat)
    returns (run: seq<Step>)
    requires layers != [] && |layers| == |peers| && Distinct(layers) && 0 < k <= limit && r <= 3
    ensures Possible(layers, limit, run) && Serving(After(layers, limit, run), peers, k, r)
  {
    hide AfterStep, Enabled, Serving, Sending;
    var before, steps, t;
    if k == 1 {
      before := FailuresCanBeSurvived(layers, peers, limit, r);
      steps, t := FirstAnswer(After(layers, limit, before), layers, peers, limit, r);
    } else {
      before := AllCanBeAnswered(layers, peers, limit, k - 1, r);
      steps, t := NextAnswered(After(layers, limit, before), layers, peers, limit, k - 1, r);
    }
    LeadsIsRun(layers, limit, before, steps, t);
    run := before + steps;
  }

  // ---------------------------------------------------------------- waiting for ever

  /** Queries were sent, and the one for layer `l` ended without a provider. */
  ghost predicate Stuck(s: System, layers: seq<Layer>, l: Layer) {
    && !s.client.status.Failed? && !s.client.chainBuilt && s.client.queriesSent && s.outstanding == map[]
    && l in layers && l !in s.client.providers
    && forall q :: q in s.client.pendingQueries ==> s.client.pendingQueries[q] != l
  }

  lemma StuckStays(s: System, layers: seq<Layer>, limit: nat, step: Step, l: Layer)
    requires Stuck(s, layers, l) && Enabled(s, step)
    ensures Stuck(AfterStep(s, layers, limit, step), layers, l) && AfterStep(s, layers, limit, step).log == s.log
  {
    if step.Kad? {
      hide AfterStep;
      StuckThroughDiscovery(s, layers, limit, step.e, l);
    }
  }

  lemma StuckThroughDiscovery(s: System, layers: seq<Layer>, limit: nat, e: KadEvent, l: Layer)
    requires Stuck(s, layers, l) && Enabled(s, Kad(e))
    ensures var t := AfterStep(s, layers, limit, Kad(e));
            Stuck(t, layers, l) && t.log == s.log
  {
    var c := AfterDiscovery(s, layers, e).client;
    assert l !in c.providers;
    assert !CanBuild(c, layers);
  }

  /** A query that ends without a provider leaves the client waiting: whatever happens from then on,
      it sends nothing more. */
  lemma {:induction false} StuckForEver(s: System, layers: seq<Layer>, limit: nat, l: Layer, steps: seq<Step>, t: System)
    requires Stuck(s, layers, l) && Leads(s, layers, limit, steps, t)
    ensures Stuck(t, layers, l) && t.log == s.log
    decreases |steps|
  {
    hide AfterStep, Enabled, Stuck;
    if steps != [] {
      StuckStays(s, layers, limit, steps[0], l);
      StuckForEver(AfterStep(s, layers, limit, steps[0]), layers, limit, l, steps[1..], t);
    }
  }

  /** Two events are enough to get there, from the start or after a failure: the client asks, and its
      first query finds nobody. */
  lemma TwoEventsGetStuck(s: System, layers: seq<Layer>, limit: nat) returns (t: System)
    requires Fresh(s.client) && s.outstanding == map[] && layers != [] && Distinct(layers)
    ensures Leads(s, layers, limit, [Kad(NewPeer), Kad(NoProviders(s.nextQuery))], t) && Stuck(t, layers, layers[0])
  {
    hide AfterStep, Enabled, Searching, Stuck;
    var asked := AsksForAll(s, layers, layers, limit);
    t := FindsNobody(asked, layers, limit, s.client, s.nextQuery);
    LeadsStep(s, layers, limit, Kad(NewPeer));
    LeadsStep(asked, layers, limit, Kad(NoProviders(s.nextQuery)));
    LeadsOn(s, layers, limit, [Kad(NewPeer)], asked, [Kad(NoProviders(s.nextQuery))], t);
    assert [Kad(NewPeer)] + [Kad(NoProviders(s.nextQuery))] == [Kad(NewPeer), Kad(NoProviders(s.nextQuery))];
  }

  lemma FindsNobody(s: System, layers: seq<Layer>, limit: nat, c: Client, q0: QueryId) returns (t: System)
    requires Fresh(c) && s.client == Searching(c, layers, layers, q0, 0) && s.outstanding == map[]
    requires layers != [] && Distinct(layers)
    ensures Enabled(s, Kad(NoProviders(q0))) && t == AfterStep(s, layers, limit, Kad(NoProviders(q0)))
    ensures Stuck(t, layers, layers[0])
  {
    var e := NoProviders(q0);
    t := AfterStep(s, layers, limit, Kad(e));
    var c1 := Discover(s.client, e);
    assert c1.pendingQueries == Left(layers, q0, 1);
    assert !CanBuild(AfterDiscovery(s, layers, e).client, layers) by {
      assert layers[0] !in AfterDiscovery(s, layers, e).client.providers;
    }
  }
}
