/**
 The streaming client: it discovers a chain of workers, keeps one payload in flight, and
 starts discovery afresh when a request fails.  Composed with the producer that sends one
 payload and waits for its answer.
 */
module StreamClient {
  import opened Common
  import F = Forwarding

  type Layer = nat
  type QueryId = nat

  /** The position of a payload in the producer's stream; its bytes are carried unexamined. */
  type Payload = nat

  const MAX_RETRIES := 3

  /** How the event loop stands: running, returned, or returned an error. */
  datatype Status = Running | Finished | Failed

  datatype Client = Client(
    bootstrapped: bool,
    queriesSent: bool,
    providers: map<Layer, PeerId>,
    pendingQueries: map<QueryId, Layer>,
    chainBuilt: bool,
    chain: seq<PeerId>,
    retryCount: nat,
    pendingPayload: Option<Payload>,
    inflightPayload: Option<Payload>,
    status: Status)

  const FRESH := Client(false, false, map[], map[], false, [], 0, None, None, Running)

  /** The Kademlia events that the client distinguishes. */
  datatype KadEvent =
    | NewPeer
    | FoundProviders(id: QueryId, found: seq<PeerId>)
    | NoProviders(id: QueryId)
    | OtherKad

  /** A request handed to the network: it goes to the first peer of the chain. */
  datatype Sent = Sent(chain: seq<PeerId>, payload: Payload)

  // ---------------------------------------------------------------- the handlers

  function AfterPayload(c: Client, payload: Payload): (Client, Option<Sent>) {
    if c.chainBuilt then (c.(inflightPayload := Some(payload)), Some(Sent(c.chain, payload)))
    else (c.(pendingPayload := Some(payload)), None)
  }

  function Discover(c: Client, e: KadEvent): Client {
    match e
    case NewPeer => c.(bootstrapped := true)
    case FoundProviders(id, found) =>
      if id in c.pendingQueries then
        c.(providers := if found == [] then c.providers else c.providers[c.pendingQueries[id] := found[0]],
           pendingQueries := c.pendingQueries - {id})
      else c
    case NoProviders(id) => c.(pendingQueries := c.pendingQueries - {id})
    case OtherKad => c
  }

  /** One query a layer, under fresh ids. */
  function NewQueries(layers: seq<Layer>, nextQuery: QueryId): (queries: map<QueryId, Layer>)
    ensures forall q :: q in queries <==> nextQuery <= q < nextQuery + |layers|
  {
    if layers == [] then map[]
    else
      var last := |layers| - 1;
      NewQueries(layers[..last], nextQuery)[nextQuery + last := layers[last]]
  }

  predicate WantsQueries(c: Client) {
    c.bootstrapped && !c.queriesSent
  }

  function SendQueries(c: Client, layers: seq<Layer>, nextQuery: QueryId): Client {
    if WantsQueries(c)
    then c.(queriesSent := true, pendingQueries := c.pendingQueries + NewQueries(layers, nextQuery))
    else c
  }

  predicate CanBuild(c: Client, layers: seq<Layer>) {
    && !c.chainBuilt && c.bootstrapped && c.pendingQueries == map[] && layers != []
    && forall l :: l in layers ==> l in c.providers
  }

  function Resolve(providers: map<Layer, PeerId>, layers: seq<Layer>): (chain: seq<PeerId>)
    requires forall l :: l in layers ==> l in providers
    ensures |chain| == |layers|
    ensures forall i :: 0 <= i < |layers| ==> chain[i] == providers[layers[i]]
  {
    seq(|layers|, i requires 0 <= i < |layers| => providers[layers[i]])
  }

  /** The end of the Kademlia handler.  The result's flag tells that an error goes to the producer. */
  function BuildChain(c: Client, layers: seq<Layer>): (Client, Option<Sent>, bool) {
    if !CanBuild(c, layers) then (c, None, false)
    else
      var chain := F.Dedup(Resolve(c.providers, layers));
      if chain == [] then
        if c.retryCount >= MAX_RETRIES then (c.(status := Failed), None, true)
        else (c.(queriesSent := false), None, false)
      else
        var c1 := c.(chain := chain, chainBuilt := true);
        match c1.pendingPayload
        case None => (c1, None, false)
        case Some(payload) =>
          (c1.(pendingPayload := None, inflightPayload := Some(payload)), Some(Sent(chain, payload)), false)
  }

  function AfterKad(c: Client, layers: seq<Layer>, e: KadEvent, nextQuery: QueryId): (Client, Option<Sent>, bool) {
    BuildChain(SendQueries(Discover(c, e), layers, nextQuery), layers)
  }

  function AfterFailure(c: Client): Client {
    if c.retryCount >= MAX_RETRIES then c.(status := Failed)
    else
      c.(retryCount := c.retryCount + 1,
         pendingPayload := if c.inflightPayload.Some? then c.inflightPayload else c.pendingPayload,
         inflightPayload := None,
         providers := map[],
         queriesSent := false,
         chainBuilt := false,
         chain := [])
  }

  /** The client's event loop, with the variables it updates. */
  class EventLoop {
    const layers: seq<Layer>
    var bootstrapped: bool
    var queriesSent: bool
    var providers: map<Layer, PeerId>
    var pendingQueries: map<QueryId, Layer>
    var chainBuilt: bool
    var currentChain: seq<PeerId>
    var retryCount: nat
    var pendingPayload: Option<Payload>
    var inflightPayload: Option<Payload>
    var status: Status

    ghost function State(): Client
      reads this
    {
      Client(bootstrapped, queriesSent, providers, pendingQueries, chainBuilt, currentChain, retryCount,
             pendingPayload, inflightPayload, status)
    }

    constructor (layers: seq<Layer>)
      ensures State() == FRESH && this.layers == layers
    {
      this.layers := layers;
      bootstrapped, queriesSent, providers, pendingQueries := false, false, map[], map[];
      chainBuilt, currentChain, retryCount := false, [], 0;
      pendingPayload, inflightPayload, status := None, None, Running;
    }

    method OnPayload(payload: Payload) returns (sent: Option<Sent>)
      modifies this
      ensures (State(), sent) == AfterPayload(old(State()), payload)
      ensures sent == if old(chainBuilt) then Some(Sent(old(currentChain), payload)) else None
      ensures inflightPayload == (if old(chainBuilt) then Some(payload) else old(inflightPayload))
      ensures pendingPayload == (if old(chainBuilt) then old(pendingPayload) else Some(payload))
    {
      sent := None;
      if chainBuilt {
        inflightPayload := Some(payload);
        sent := Some(Sent(currentChain, payload));
      } else {
        pendingPayload := Some(payload);
      }
    }

    method OnKademlia(e: KadEvent, nextQuery: QueryId) returns (sent: Option<Sent>, error: bool)
      modifies this
      ensures (State(), sent, error) == AfterKad(old(State()), layers, e, nextQuery)
    {
      OnQueryProgress(e);
      IssueQueries(nextQuery);
      sent, error := TryBuildChain();
    }

    method OnQueryProgress(e: KadEvent)
      modifies this
      ensures State() == Discover(old(State()), e)
    {
      match e {
        case NewPeer =>
          bootstrapped := true;
        case FoundProviders(id, found) =>
          if id in pendingQueries {
            if found != [] {
              providers := providers[pendingQueries[id] := found[0]];
            }
            pendingQueries := pendingQueries - {id};
          }
        case NoProviders(id) =>
          pendingQueries := pendingQueries - {id};
        case OtherKad =>
      }
    }

    method IssueQueries(nextQuery: QueryId)
      modifies this
      ensures State() == SendQueries(old(State()), layers, nextQuery)
    {
      if bootstrapped && !queriesSent {
        queriesSent := true;
        ghost var before := pendingQueries;
        assert before + NewQueries([], nextQuery) == before;
        for i := 0 to |layers|
          modifies this`pendingQueries
          invariant pendingQueries == before + NewQueries(layers[..i], nextQuery)
        {
          assert layers[..i + 1][..i] == layers[..i];
          pendingQueries := pendingQueries[nextQuery + i := layers[i]];
        }
        assert layers[..|layers|] == layers;
      }
    }

    method TryBuildChain() returns (sent: Option<Sent>, error: bool)
      modifies this
      ensures (State(), sent, error) == BuildChain(old(State()), layers)
    {
      sent, error := None, false;
      if !chainBuilt && bootstrapped && pendingQueries == map[] && layers != [] && forall l :: l in layers ==> l in providers {
        var chain := F.DedupChain(Resolve(providers, layers));
        if chain == [] {
          // The retry for an empty chain is never taken: some layer has a provider here.
          assert false;
        } else {
          currentChain := chain;
          chainBuilt := true;
          if pendingPayload.Some? {
            var payload := pendingPayload.value;
            pendingPayload := None;
            inflightPayload := Some(payload);
            sent := Some(Sent(currentChain, payload));
          }
        }
      }
    }

    method OnResponse()
      modifies this
      ensures State() == old(State()).(inflightPayload := None)
    {
      inflightPayload := None;
    }

    method OnOutboundFailure()
      modifies this
      ensures State() == AfterFailure(old(State()))
      ensures old(retryCount) >= 3 ==> State() == old(State()).(status := Failed)
      ensures old(retryCount) < 3 ==>
                State() == Client(old(bootstrapped), false, map[], old(pendingQueries), false, [], old(retryCount) + 1,
                                  if old(inflightPayload) == None then old(pendingPayload) else old(inflightPayload),
                                  None, old(status))
    {
      if retryCount >= MAX_RETRIES {
        status := Failed;
        return;
      }
      retryCount := retryCount + 1;
      if inflightPayload.Some? {
        pendingPayload := inflightPayload;
        inflightPayload := None;
      }
      providers := map[];
      queriesSent := false;
      chainBuilt := false;
      currentChain := [];
    }
  }

  // ---------------------------------------------------------------- client and producer

  /** The generating loop: it hands out payload `k`, then waits for an answer before payload
      `k + 1`, and stops after `limit` payloads or on an error. */
  datatype Producer = Ready(k: nat) | Awaiting(k: nat) | Done

  /** An answer that reaches the producer: for which payload the client gave it, and whether it
      is a response. */
  datatype Answer = Answer(payload: Payload, ok: bool)

  datatype System = System(
    client: Client,
    producer: Producer,
    requests: Option<Payload>,           // the channel to the client, of capacity one
    answers: Option<Answer>,             // the channel to the producer, of capacity one
    outstanding: map<nat, Payload>,      // requests that the network has not settled
    nextRequest: nat,
    nextQuery: QueryId,
    // what happened so far
    taken: nat,                          // payloads that the client received
    given: seq<Answer>,                  // answers that the client sent
    log: seq<(Sent, nat)>,               // requests sent, with the retry count at the time
    issued: map<QueryId, nat>,           // the retry count when a query was issued
    found: set<(nat, Layer, PeerId)>)    // providers found, with the retry count of their query

  const START := System(FRESH, Ready(0), None, None, map[], 0, 0, 0, [], [], map[], {})

  datatype Step =
    | Produce
    | Consume
    | Take
    | Close
    | Kad(e: KadEvent)
    | Respond(id: nat)
    | Fail(id: nat)

  predicate Enabled(s: System, step: Step) {
    match step
    case Produce => s.producer.Ready? && s.requests.None?
    case Consume => s.producer.Awaiting? && s.answers.Some?
    case Take => s.client.status.Running? && s.requests.Some?
    case Close => s.client.status.Running? && s.producer.Done? && s.requests.None?
    case Kad(_) => s.client.status.Running?
    case Respond(id) => s.client.status.Running? && id in s.outstanding && s.answers.None?
    case Fail(id) => s.client.status.Running? && id in s.outstanding && s.answers.None?
  }

  function Transmit(s: System, sent: Option<Sent>): System {
    match sent
    case None => s
    case Some(request) =>
      s.(outstanding := s.outstanding[s.nextRequest := request.payload],
         nextRequest := s.nextRequest + 1,
         log := s.log + [(request, s.client.retryCount)])
  }

  function Give(s: System, answer: Answer): System {
    s.(answers := Some(answer), given := s.given + [answer])
  }

  /** A Kademlia event up to the check whether a chain can be built: what it found is credited
      to the query's retry count, and new queries are issued under the present one. */
  function AfterDiscovery(s: System, layers: seq<Layer>, e: KadEvent): System {
    var learned := Discover(s.client, e);
    var asked := SendQueries(learned, layers, s.nextQuery);
    var found := if e.FoundProviders? && e.id in s.client.pendingQueries && e.id in s.issued && e.found != []
                 then {(s.issued[e.id], s.client.pendingQueries[e.id], e.found[0])} else {};
    var queries := if WantsQueries(learned) then NewQueries(layers, s.nextQuery) else map[];
    s.(client := asked,
       nextQuery := s.nextQuery + (if WantsQueries(learned) then |layers| else 0),
       issued := s.issued + map q | q in queries :: s.client.retryCount,
       found := s.found + found)
  }

  function AfterStep(s: System, layers: seq<Layer>, limit: nat, step: Step): System
    requires Enabled(s, step)
  {
    match step
    case Produce => if s.producer.k < limit then s.(producer := Awaiting(s.producer.k), requests := Some(s.producer.k))
                    else s.(producer := Done)
    case Consume => s.(answers := None, producer := if s.answers.value.ok then Ready(s.producer.k + 1) else Done)
    case Take =>
      var (c, sent) := AfterPayload(s.client, s.requests.value);
      Transmit(s.(client := c, requests := None, taken := s.taken + 1), sent)
    case Close => s.(client := s.client.(status := Finished))
    case Kad(e) =>
      var s1 := AfterDiscovery(s, layers, e);
      var (c, sent, _) := BuildChain(s1.client, layers);
      Transmit(s1.(client := c), sent)
    case Respond(id) =>
      Give(s.(client := s.client.(inflightPayload := None), outstanding := s.outstanding - {id}),
           Answer(s.outstanding[id], true))
    case Fail(id) =>
      var s1 := s.(client := AfterFailure(s.client), outstanding := s.outstanding - {id});
      if s1.client.status.Failed? then Give(s1, Answer(s.outstanding[id], false)) else s1
  }

  // ---------------------------------------------------------------- the invariant

  function Count<T>(o: Option<T>): nat { if o.Some? then 1 else 0 }

  /** The places that can hold the outstanding payload hold `k` or nothing, and `n` of them hold it. */
  ghost predicate HeldBy(s: System, k: Payload, n: nat) {
    && (s.requests.Some? ==> s.requests.value == k)
    && (s.client.pendingPayload.Some? ==> s.client.pendingPayload.value == k)
    && (s.client.inflightPayload.Some? ==> s.client.inflightPayload.value == k)
    && (s.answers.Some? ==> s.answers.value.payload == k)
    && Count(s.requests) + Count(s.client.pendingPayload) + Count(s.client.inflightPayload) + Count(s.answers) == n
  }

  /** While the client runs, an awaited payload is in exactly one place, and no other is anywhere. */
  ghost predicate OneHome(s: System) {
    match s.client.status
    case Running =>
      (match s.producer
       case Awaiting(k) => HeldBy(s, k, 1)
       case _ => HeldBy(s, 0, 0))
    case Finished => s.producer.Done?
    case Failed =>
      s.requests.None? &&
      (match s.producer
       case Awaiting(k) => s.answers == Some(Answer(k, false))
       case Ready(_) => false
       case Done => s.answers.None?)
  }

  /** At most one request is outstanding: the one that carries the payload in flight. */
  ghost predicate OneRequest(s: System) {
    s.client.status.Running? ==>
      && (s.client.inflightPayload.None? ==> s.outstanding == map[])
      && (s.client.inflightPayload.Some? ==>
            exists id :: id in s.outstanding && s.outstanding == map[id := s.client.inflightPayload.value])
  }

  ghost predicate ChainState(c: Client, layers: seq<Layer>) {
    && (c.status.Running? ==>
          && (c.inflightPayload.Some? ==> c.chainBuilt)
          && (c.pendingPayload.Some? ==> !c.chainBuilt))
    && (c.chainBuilt ==>
          && c.bootstrapped && c.queriesSent && c.pendingQueries == map[] && c.chain != []
          && (forall l :: l in layers ==> l in c.providers)
          && c.chain == F.Dedup(Resolve(c.providers, layers)))
    && (!c.queriesSent ==> c.pendingQueries == map[] && c.providers == map[])
    && c.retryCount <= MAX_RETRIES
  }

  /** What the client knows comes from queries issued since the last failure. */
  ghost predicate KnowledgeFresh(s: System) {
    && (forall q :: q in s.client.pendingQueries ==> q in s.issued && s.issued[q] == s.client.retryCount)
    && (forall l :: l in s.client.providers ==> (s.client.retryCount, l, s.client.providers[l]) in s.found)
    && (forall q :: q in s.issued ==> q < s.nextQuery)
  }

  ghost predicate ChainFresh(found: set<(nat, Layer, PeerId)>, chain: seq<PeerId>, retry: nat) {
    chain != [] && forall p :: p in chain ==> exists l :: (retry, l, p) in found
  }

  ghost predicate LogFresh(s: System) {
    forall i :: 0 <= i < |s.log| ==> ChainFresh(s.found, s.log[i].0.chain, s.log[i].1)
  }

  /** The payloads received, requests sent and answers given add up. */
  ghost predicate Accounts(s: System) {
    && |s.log| + Count(s.client.pendingPayload) == s.taken + s.client.retryCount
    && (forall i :: 0 <= i < |s.given| ==> s.given[i].payload == i)
    && (forall i :: 0 <= i < |s.given| ==> s.given[i].ok || (s.client.status.Failed? && i == |s.given| - 1))
    && (s.answers.Some? ==> s.given != [] && s.answers.value == s.given[|s.given| - 1])
    && match s.producer
       case Ready(k) => |s.given| == k && s.taken == k && s.answers.None?
       case Awaiting(k) => |s.given| == k + Count(s.answers) && s.taken + Count(s.requests) == k + 1
       case Done => true
  }

  ghost predicate Inv(s: System, layers: seq<Layer>) {
    && OneHome(s) && OneRequest(s) && ChainState(s.client, layers) && KnowledgeFresh(s) && LogFresh(s) && Accounts(s)
  }

  lemma ProducerKeepsInv(s: System, layers: seq<Layer>, limit: nat, step: Step)
    requires Inv(s, layers) && Enabled(s, step) && (step.Produce? || step.Consume? || step.Close?)
    ensures Inv(AfterStep(s, layers, limit, step), layers)
  {
  }

  lemma RespondKeepsInv(s: System, layers: seq<Layer>, limit: nat, step: Step)
    requires Inv(s, layers) && Enabled(s, step) && step.Respond?
    ensures Inv(AfterStep(s, layers, limit, step), layers)
  {
    assert s.client.inflightPayload.Some?;
  }

  lemma FailKeepsInv(s: System, layers: seq<Layer>, limit: nat, step: Step)
    requires Inv(s, layers) && Enabled(s, step) && step.Fail?
    ensures Inv(AfterStep(s, layers, limit, step), layers)
  {
    assert s.client.inflightPayload.Some?;
  }

  lemma ChainIsFresh(s: System, layers: seq<Layer>, p: PeerId) returns (l: Layer)
    requires KnowledgeFresh(s) && forall x :: x in layers ==> x in s.client.providers
    requires p in F.Dedup(Resolve(s.client.providers, layers))
    ensures (s.client.retryCount, l, p) in s.found
  {
    var chain := Resolve(s.client.providers, layers);
    F.DedupKeepsPeers(chain);
    var i :| 0 <= i < |chain| && chain[i] == p;
    l := layers[i];
  }

  lemma TransmitKeepsLog(s: System, layers: seq<Layer>, sent: Option<Sent>)
    requires KnowledgeFresh(s) && LogFresh(s) && ChainState(s.client, layers)
    requires sent.Some? ==> s.client.chainBuilt && sent.value.chain == s.client.chain
    ensures LogFresh(Transmit(s, sent))
  {
    if sent.Some? {
      forall p | p in sent.value.chain ensures exists l :: (s.client.retryCount, l, p) in s.found {
        var l := ChainIsFresh(s, layers, p);
      }
      assert ChainFresh(s.found, sent.value.chain, s.client.retryCount);
    }
  }

  lemma TakeKeepsInv(s: System, layers: seq<Layer>, limit: nat, step: Step)
    requires Inv(s, layers) && Enabled(s, step) && step.Take?
    ensures Inv(AfterStep(s, layers, limit, step), layers)
  {
    var (c, sent) := AfterPayload(s.client, s.requests.value);
    var s1 := s.(client := c, requests := None, taken := s.taken + 1);
    TransmitKeepsLog(s1, layers, sent);
  }

  /** Learning a provider keeps what the client knows fresh, and so does asking. */
  lemma DiscoveryKeepsInv(s: System, layers: seq<Layer>, e: KadEvent)
    requires Inv(s, layers) && s.client.status.Running?
    ensures Inv(AfterDiscovery(s, layers, e), layers)
  {
    var s1 := AfterDiscovery(s, layers, e);
    DiscoveryKeepsChain(s, layers, e);
    DiscoveryKeepsKnowledge(s, layers, e);
    forall i | 0 <= i < |s1.log| ensures ChainFresh(s1.found, s1.log[i].0.chain, s1.log[i].1) {
      assert ChainFresh(s.found, s.log[i].0.chain, s.log[i].1);
    }
  }

  lemma DiscoveryKeepsChain(s: System, layers: seq<Layer>, e: KadEvent)
    requires Inv(s, layers) && s.client.status.Running?
    ensures ChainState(AfterDiscovery(s, layers, e).client, layers)
  {
    var c := s.client;
    if c.chainBuilt {
      assert forall q :: q !in c.pendingQueries;
      assert c.pendingQueries - {0} == map[];
    }
  }

  lemma DiscoveryKeepsKnowledge(s: System, layers: seq<Layer>, e: KadEvent)
    requires Inv(s, layers) && s.client.status.Running?
    ensures KnowledgeFresh(AfterDiscovery(s, layers, e))
  {
    var s1 := AfterDiscovery(s, layers, e);
    forall l | l in s1.client.providers
      ensures (s1.client.retryCount, l, s1.client.providers[l]) in s1.found
    {
    }
  }

  lemma KadKeepsInv(s: System, layers: seq<Layer>, limit: nat, e: KadEvent)
    requires Inv(s, layers) && Enabled(s, Kad(e))
    ensures Inv(AfterStep(s, layers, limit, Kad(e)), layers)
  {
    DiscoveryKeepsInv(s, layers, e);
    var s1 := AfterDiscovery(s, layers, e);
    BuildKeepsInv(s1, layers);
  }

  /** Where a chain can be built it is not empty: the branches for an empty chain are dead. */
  lemma BuiltChainIsNotEmpty(c: Client, layers: seq<Layer>)
    requires CanBuild(c, layers)
    ensures BuildChain(c, layers).0.chainBuilt && !BuildChain(c, layers).2
    ensures BuildChain(c, layers).0.chain == F.Dedup(Resolve(c.providers, layers)) != []
  {
    assert Resolve(c.providers, layers) != [];
  }

  lemma BuildKeepsInv(s: System, layers: seq<Layer>)
    requires Inv(s, layers) && s.client.status.Running?
    ensures var (c, sent, _) := BuildChain(s.client, layers);
            Inv(Transmit(s.(client := c), sent), layers)
  {
    var (c, sent, _) := BuildChain(s.client, layers);
    var s1 := s.(client := c);
    if CanBuild(s.client, layers) {
      BuildKeepsChain(s, layers);
      assert KnowledgeFresh(s1) by {
        hide LogFresh, ChainState, OneHome, OneRequest, Accounts;
      }
      BuildKeepsLog(s, layers);
      BuildKeepsHomes(s, layers);
    }
  }

  lemma BuildKeepsChain(s: System, layers: seq<Layer>)
    requires Inv(s, layers) && s.client.status.Running? && CanBuild(s.client, layers)
    ensures var (c, _, _) := BuildChain(s.client, layers);
            ChainState(c, layers)
  {
    hide LogFresh, KnowledgeFresh, OneHome, OneRequest, Accounts;
    BuiltChainIsNotEmpty(s.client, layers);
    assert layers[0] in s.client.providers;
  }

  lemma BuildKeepsLog(s: System, layers: seq<Layer>)
    requires Inv(s, layers) && s.client.status.Running? && CanBuild(s.client, layers)
    ensures var (c, sent, _) := BuildChain(s.client, layers);
            LogFresh(Transmit(s.(client := c), sent))
  {
    var (c, sent, _) := BuildChain(s.client, layers);
    BuildKeepsChain(s, layers);
    TransmitKeepsLog(s.(client := c), layers, sent);
  }

  lemma BuildKeepsHomes(s: System, layers: seq<Layer>)
    requires Inv(s, layers) && s.client.status.Running? && CanBuild(s.client, layers)
    ensures var (c, sent, _) := BuildChain(s.client, layers);
            var s1 := Transmit(s.(client := c), sent);
            OneHome(s1) && OneRequest(s1) && Accounts(s1)
  {
    hide LogFresh, KnowledgeFresh;
    BuiltChainIsNotEmpty(s.client, layers);
  }

  lemma StepKeepsInv(s: System, layers: seq<Layer>, limit: nat, step: Step)
    requires Inv(s, layers) && Enabled(s, step)
    ensures Inv(AfterStep(s, layers, limit, step), layers)
  {
    match step
    case Produce => ProducerKeepsInv(s, layers, limit, step);
    case Consume => ProducerKeepsInv(s, layers, limit, step);
    case Close => ProducerKeepsInv(s, layers, limit, step);
    case Take => TakeKeepsInv(s, layers, limit, step);
    case Kad(e) => KadKeepsInv(s, layers, limit, e);
    case Respond(_) => RespondKeepsInv(s, layers, limit, step);
    case Fail(_) => FailKeepsInv(s, layers, limit, step);
  }

  // ---------------------------------------------------------------- whole runs

  ghost predicate Possible(layers: seq<Layer>, limit: nat, steps: seq<Step>)
    decreases |steps|, 0
  {
    steps == [] ||
    var front := steps[..|steps| - 1];
    Possible(layers, limit, front) && Enabled(After(layers, limit, front), steps[|steps| - 1])
  }

  ghost function After(layers: seq<Layer>, limit: nat, steps: seq<Step>): System
    requires Possible(layers, limit, steps)
    decreases |steps|, 1
  {
    if steps == [] then START
    else AfterStep(After(layers, limit, steps[..|steps| - 1]), layers, limit, steps[|steps| - 1])
  }

  lemma StartIsEmpty(layers: seq<Layer>)
    ensures OneHome(START) && OneRequest(START) && ChainState(START.client, layers)
  {
  }

  lemma StartIsFresh()
    ensures KnowledgeFresh(START) && LogFresh(START) && Accounts(START)
  {
  }

  lemma StartFits(layers: seq<Layer>)
    ensures Inv(START, layers)
  {
    hide OneHome, OneRequest, ChainState, KnowledgeFresh, LogFresh, Accounts;
    StartIsEmpty(layers);
    StartIsFresh();
  }

  lemma {:induction false} RunKeepsInv(layers: seq<Layer>, limit: nat, steps: seq<Step>)
    requires Possible(layers, limit, steps)
    ensures Inv(After(layers, limit, steps), layers)
  {
    hide Inv, AfterStep, Enabled;
    StartFits(layers);
    if steps != [] {
      var front := steps[..|steps| - 1];
      RunKeepsInv(layers, limit, front);
      StepKeepsInv(After(layers, limit, front), layers, limit, steps[|steps| - 1]);
    }
  }

  /** While the client runs, a payload that the producer awaits is in exactly one of the channel
      to the client, the queue, the request in flight and the channel back, and only a payload
      in flight is in the network; a payload is in flight only with a chain and queued only
      without. */
  ghost predicate Conserved(s: System) {
    && HeldBy(s, if s.producer.Awaiting? then s.producer.k else 0, if s.producer.Awaiting? then 1 else 0)
    && (forall id :: id in s.outstanding ==> s.client.inflightPayload == Some(s.outstanding[id]))
    && (forall id, id' :: id in s.outstanding && id' in s.outstanding ==> id == id')
    && (s.client.inflightPayload.Some? ==> s.client.chainBuilt)
    && (s.client.pendingPayload.Some? ==> !s.client.chainBuilt)
  }

  lemma InvMeansConserved(s: System, layers: seq<Layer>)
    requires Inv(s, layers) && s.client.status.Running?
    ensures Conserved(s)
  {
  }

  /** Conservation in every reachable state. */
  lemma PayloadsAreConserved(layers: seq<Layer>, limit: nat, steps: seq<Step>)
    requires Possible(layers, limit, steps) && After(layers, limit, steps).client.status.Running?
    ensures Conserved(After(layers, limit, steps))
  {
    RunKeepsInv(layers, limit, steps);
    InvMeansConserved(After(layers, limit, steps), layers);
  }

  /** Although every request has the same id and no response is matched to a request, the
      producer's answers are for its payloads 0, 1, 2, ... in this order: each payload gets at
      most one answer, and every answer but the last is a response. */
  lemma AnswersComeInOrder(layers: seq<Layer>, limit: nat, steps: seq<Step>, i: nat)
    requires Possible(layers, limit, steps) && i < |After(layers, limit, steps).given|
    ensures After(layers, limit, steps).given[i].payload == i
    ensures i + 1 < |After(layers, limit, steps).given| ==> After(layers, limit, steps).given[i].ok
  {
    RunKeepsInv(layers, limit, steps);
  }

  ghost predicate RetriesBounded(s: System) {
    && s.client.retryCount <= MAX_RETRIES
    && |s.log| + Count(s.client.pendingPayload) == s.taken + s.client.retryCount
  }

  lemma InvMeansRetriesBounded(s: System, layers: seq<Layer>)
    requires Inv(s, layers)
    ensures RetriesBounded(s)
  {
  }

  /** Over the whole run, at most three retries; and each payload received was sent once, plus
      one send a retry, less a payload that is queued. */
  lemma SendsAreBounded(layers: seq<Layer>, limit: nat, steps: seq<Step>)
    requires Possible(layers, limit, steps)
    ensures RetriesBounded(After(layers, limit, steps))
  {
    RunKeepsInv(layers, limit, steps);
    InvMeansRetriesBounded(After(layers, limit, steps), layers);
  }

  /** Freshness: every chain ever used contains only peers that were found by queries issued
      since the latest failure before its use. */
  lemma ChainsAreFresh(layers: seq<Layer>, limit: nat, steps: seq<Step>, i: nat, p: PeerId)
    returns (layer: Layer)
    requires Possible(layers, limit, steps) && i < |After(layers, limit, steps).log|
    requires p in After(layers, limit, steps).log[i].0.chain
    ensures (After(layers, limit, steps).log[i].1, layer, p) in After(layers, limit, steps).found
    ensures After(layers, limit, steps).log[i].0.chain != []
  {
    RunKeepsInv(layers, limit, steps);
    var s := After(layers, limit, steps);
    assert ChainFresh(s.found, s.log[i].0.chain, s.log[i].1);
    layer :| (s.log[i].1, layer, p) in s.found;
  }
}
