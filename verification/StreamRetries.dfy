/**
 What failures do to the streaming client, over whole runs: the first three are retried with the
 same payload, and the fourth ends the client.
 */
module StreamRetries {
  import opened Common
  import opened StreamClient

  /** The number of failed requests in a run. */
  ghost function Failures(steps: seq<Step>): nat {
    if steps == [] then 0
    else Failures(steps[..|steps| - 1]) + if steps[|steps| - 1].Fail? then 1 else 0
  }

  /** Three retries, counted, and the fourth failure is the end. */
  ghost predicate CountsFailures(c: Client, failures: nat) {
    && failures <= 4
    && (c.status.Failed? <==> failures == 4)
    && (failures < 4 ==> c.retryCount == failures)
    && (failures == 4 ==> c.retryCount == 3)
  }

  /** What a Kademlia event may do to a running client: it goes on, and it sends the queued payload
      or leaves it queued. */
  lemma KadEffect(s: System, layers: seq<Layer>, limit: nat, e: KadEvent)
    requires Inv(s, layers) && Enabled(s, Kad(e))
    ensures var s' := AfterStep(s, layers, limit, Kad(e));
            && s'.client.status.Running? && s'.client.retryCount == s.client.retryCount
            && (if s'.log == s.log then s'.client.pendingPayload == s.client.pendingPayload
                else |s'.log| == |s.log| + 1 && s.log <= s'.log && Some(s'.log[|s.log|].0.payload) == s.client.pendingPayload)
  {
    hide OneHome, OneRequest, ChainState, KnowledgeFresh, LogFresh, Accounts;
    var s1 := AfterDiscovery(s, layers, e);
    DiscoveryEffect(s, layers, e);
    hide AfterDiscovery;
    if CanBuild(s1.client, layers) {
      BuiltChainIsNotEmpty(s1.client, layers);
    }
  }

  lemma DiscoveryEffect(s: System, layers: seq<Layer>, e: KadEvent)
    ensures var s1 := AfterDiscovery(s, layers, e);
            && s1.client.status == s.client.status && s1.client.retryCount == s.client.retryCount
            && s1.client.pendingPayload == s.client.pendingPayload && s1.log == s.log
  {
  }

  lemma StepCounts(s: System, layers: seq<Layer>, limit: nat, step: Step, failures: nat)
    requires Inv(s, layers) && Enabled(s, step) && CountsFailures(s.client, failures)
    ensures CountsFailures(AfterStep(s, layers, limit, step).client, failures + if step.Fail? then 1 else 0)
  {
    if step.Kad? {
      hide AfterStep;
      KadEffect(s, layers, limit, step.e);
    } else {
      hide Inv;
    }
  }

  lemma NothingFailedYet()
    ensures CountsFailures(START.client, 0) && Failures([]) == 0
  {
  }

  /** In every run the client has failed exactly when there were four failures; before that, it has
      retried once for each. */
  lemma {:induction false} FailuresAreCounted(layers: seq<Layer>, limit: nat, steps: seq<Step>)
    requires Possible(layers, limit, steps)
    ensures CountsFailures(After(layers, limit, steps).client, Failures(steps))
  {
    hide Inv, AfterStep, Enabled, CountsFailures;
    NothingFailedYet();
    if steps != [] {
      var front := steps[..|steps| - 1];
      FailuresAreCounted(layers, limit, front);
      RunKeepsInv(layers, limit, front);
      StepCounts(After(layers, limit, front), layers, limit, steps[|steps| - 1], Failures(front));
    }
  }

  // ---------------------------------------------------------------- the payload of a retry

  /** The client starts over with payload `k` queued. */
  ghost predicate StartsOver(s: System, k: Payload) {
    && s.client.status.Running? && s.client.pendingPayload == Some(k) && s.client.inflightPayload == None
    && !s.client.chainBuilt && s.client.chain == [] && s.client.providers == map[] && !s.client.queriesSent
    && s.outstanding == map[]
  }

  lemma FailStartsOver(s: System, layers: seq<Layer>, limit: nat, id: nat)
    requires Inv(s, layers) && Enabled(s, Fail(id)) && s.client.retryCount < 3
    ensures StartsOver(AfterStep(s, layers, limit, Fail(id)), s.outstanding[id])
    ensures AfterStep(s, layers, limit, Fail(id)).client.retryCount == s.client.retryCount + 1
  {
    hide OneHome, ChainState, KnowledgeFresh, LogFresh, Accounts;
    assert s.client.inflightPayload.Some?;
  }

  /** Each of the first three failures of a run queues the payload of the failed request again, and
      forgets the chain, the providers and the queries. */
  lemma FailureIsRetried(layers: seq<Layer>, limit: nat, steps: seq<Step>)
    requires Possible(layers, limit, steps) && steps != [] && steps[|steps| - 1].Fail? && Failures(steps) <= 3
    ensures Possible(layers, limit, steps[..|steps| - 1])
    ensures steps[|steps| - 1].id in After(layers, limit, steps[..|steps| - 1]).outstanding
    ensures StartsOver(After(layers, limit, steps),
                       After(layers, limit, steps[..|steps| - 1]).outstanding[steps[|steps| - 1].id])
    ensures After(layers, limit, steps).client.retryCount == Failures(steps)
  {
    hide Inv, AfterStep, StartsOver;
    var front := steps[..|steps| - 1];
    RunKeepsInv(layers, limit, front);
    FailuresAreCounted(layers, limit, front);
    FailStartsOver(After(layers, limit, front), layers, limit, steps[|steps| - 1].id);
  }

  /** Since the log had length `n`, payload `k` has been queued, or it was sent next. */
  ghost predicate SendsNext(s: System, n: nat, k: Payload) {
    if |s.log| == n then s.client.status.Running? && s.client.pendingPayload == Some(k)
    else |s.log| > n && s.log[n].0.payload == k
  }

  lemma StepSendsNext(s: System, layers: seq<Layer>, limit: nat, step: Step, n: nat, k: Payload)
    requires Inv(s, layers) && Enabled(s, step) && SendsNext(s, n, k)
    ensures SendsNext(AfterStep(s, layers, limit, step), n, k)
  {
    if step.Kad? {
      hide AfterStep;
      KadEffect(s, layers, limit, step.e);
    } else {
      hide ChainState, KnowledgeFresh, LogFresh, Accounts;
    }
  }

  lemma {:induction false} PrefixPossible(layers: seq<Layer>, limit: nat, steps: seq<Step>, i: nat)
    requires Possible(layers, limit, steps) && i <= |steps|
    ensures Possible(layers, limit, steps[..i])
    decreases |steps|
  {
    if i < |steps| {
      PrefixPossible(layers, limit, steps[..|steps| - 1], i);
      assert steps[..|steps| - 1][..i] == steps[..i];
    } else {
      assert steps[..i] == steps;
    }
  }

  /** After each of the first three failures, the payload of the failed request stays queued until
      it is the next payload sent. */
  lemma {:induction false} RetrySendsSamePayload(layers: seq<Layer>, limit: nat, steps: seq<Step>, i: nat)
    requires Possible(layers, limit, steps) && i < |steps| && steps[i].Fail? && Failures(steps[..i + 1]) <= 3
    ensures Possible(layers, limit, steps[..i]) && Possible(layers, limit, steps[..i + 1])
    ensures steps[i].id in After(layers, limit, steps[..i]).outstanding
    ensures SendsNext(After(layers, limit, steps), |After(layers, limit, steps[..i + 1]).log|,
                      After(layers, limit, steps[..i]).outstanding[steps[i].id])
    decreases |steps|
  {
    PrefixPossible(layers, limit, steps, i);
    PrefixPossible(layers, limit, steps, i + 1);
    var front := steps[..|steps| - 1];
    if i < |front| {
      hide Inv, AfterStep, Enabled, SendsNext;
      assert front[..i] == steps[..i] && front[..i + 1] == steps[..i + 1];
      RetrySendsSamePayload(layers, limit, front, i);
      RunKeepsInv(layers, limit, front);
      StepSendsNext(After(layers, limit, front), layers, limit, steps[|front|],
                    |After(layers, limit, steps[..i + 1]).log|,
                    After(layers, limit, steps[..i]).outstanding[steps[i].id]);
    } else {
      hide Inv, AfterStep, Enabled;
      assert steps[..i + 1] == steps && steps[..i] == front;
      FailureIsRetried(layers, limit, steps);
    }
  }
}
