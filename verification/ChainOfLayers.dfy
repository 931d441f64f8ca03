/**
 When a chain computes what its peers' layers compute one after the other.

 Only the last peer of a chain runs its engine, and collapsing repeats relies on that: an engine
 runs all the layers of its peer at once.  A chain is one answer short of the whole computation
 as soon as it has two different peers.
 */
module ChainOfLayers {
  import opened Common
  import opened Forwarding

  /** What a hop makes of a tensor if it computes; without an engine it leaves it as it is. */
  function AfterHop(engine: Option<Engine>, tensor: Tensor): Option<Tensor> {
    match engine
    case None => Some(tensor)
    case Some(run) =>
      match run(tensor)
      case Some(output) => Some(tensor.(data := output))
      case None => None
  }

  /** What all the hops of a route make of a tensor in order, or nothing when one of them fails. */
  function AfterHops(engines: PeerId -> Option<Engine>, route: seq<PeerId>, tensor: Tensor): Option<Tensor> {
    if route == [] then Some(tensor)
    else
      match AfterHops(engines, route[..|route| - 1], tensor)
      case None => None
      case Some(t) => AfterHop(engines(route[|route| - 1]), t)
  }

  /** The reply carries what all the hops of the collapsed chain compute, unless one of them fails. */
  ghost predicate CarriesAll(engines: PeerId -> Option<Engine>, chain: seq<PeerId>, requestId: nat, tensor: Tensor,
                             reply: Response)
  {
    var result := AfterHops(engines, Dedup(chain), tensor);
    result.Some? ==> reply == Response(requestId, result.value)
  }

  ghost predicate TerminalCarriesAll(engines: PeerId -> Option<Engine>, chain: seq<PeerId>, requestId: nat, tensor: Tensor)
    requires chain != []
  {
    CarriesAll(engines, chain, requestId, tensor, TerminalReply(engines(chain[|chain| - 1]), requestId, tensor))
  }

  /** A chain collapses to one hop exactly when it is one peer throughout. */
  lemma OneHopIff(chain: seq<PeerId>)
    requires chain != []
    ensures |Dedup(chain)| == 1 <==> forall p :: p in chain ==> p == chain[0]
  {
    DedupKeepsPeers(chain);
    var route := Dedup(chain);
    if |route| > 1 {
      assert route[0] != route[1] && route[1] in chain;
    }
  }

  lemma OneHopCarriesAll(engines: PeerId -> Option<Engine>, chain: seq<PeerId>, requestId: nat, tensor: Tensor)
    requires |Dedup(chain)| == 1
    ensures chain != [] && TerminalCarriesAll(engines, chain, requestId, tensor)
  {
    DedupKeepsPeers(chain);
    assert Dedup(chain)[..0] == [];
  }

  /** Every peer appends a byte. */
  function Appenders(): PeerId -> Option<Engine> {
    _ => Some((t: Tensor) => Some(t.data + [0]))
  }

  lemma {:induction false} AppendersAppend(route: seq<PeerId>, tensor: Tensor)
    ensures AfterHops(Appenders(), route, tensor).Some?
    ensures |AfterHops(Appenders(), route, tensor).value.data| == |tensor.data| + |route|
  {
    if route != [] {
      AppendersAppend(route[..|route| - 1], tensor);
    }
  }

  lemma LongerChainLosesHops(chain: seq<PeerId>, requestId: nat, tensor: Tensor)
    requires chain != [] && |Dedup(chain)| != 1
    ensures !TerminalCarriesAll(Appenders(), chain, requestId, tensor)
  {
    AppendersAppend(Dedup(chain), tensor);
    assert TerminalReply(Appenders()(chain[|chain| - 1]), requestId, tensor).tensor.data == tensor.data + [0];
  }

  /** The terminal reply is what the hops of the chain compute in order, whatever they compute,
      exactly when the chain is a single hop. */
  lemma TerminalCarriesAllIff(chain: seq<PeerId>)
    requires chain != []
    ensures (forall engines, requestId, tensor :: TerminalCarriesAll(engines, chain, requestId, tensor)) <==>
              |Dedup(chain)| == 1
  {
    if |Dedup(chain)| == 1 {
      forall engines, requestId, tensor ensures TerminalCarriesAll(engines, chain, requestId, tensor) {
        OneHopCarriesAll(engines, chain, requestId, tensor);
      }
    } else {
      LongerChainLosesHops(chain, 1, FAILURE.tensor);
    }
  }

  // ---------------------------------------------------------------- what clients receive

  /** The send that is event `i` went along `chain`, has a response, and no request that descends
      from it failed. */
  ghost predicate Answered(engines: PeerId -> Option<Engine>, events: seq<Event>, i: nat, chain: seq<PeerId>) {
    && Possible(engines, events) && i < |events| && events[i].Send? && events[i].chain == chain
    && SentAs(engines, events, i) in After(engines, events).received
    && SentAs(engines, events, i) !in After(engines, events).failedFor
  }

  ghost predicate ReceivesAll(engines: PeerId -> Option<Engine>, events: seq<Event>, i: nat, chain: seq<PeerId>)
    requires Answered(engines, events, i, chain)
  {
    var e := events[i];
    CarriesAll(engines, chain, e.requestId, e.tensor, After(engines, events).received[SentAs(engines, events, i)])
  }

  /** A run in which a client has its answer, computed by appenders. */
  lemma SomeRunAnswers(chain: seq<PeerId>) returns (events: seq<Event>)
    requires chain != []
    ensures events != [] && Answered(Appenders(), events, 0, chain)
  {
    var send := Send(0, chain, 1, FAILURE.tensor, None);
    assert [send][..0] == [];
    assert Possible(Appenders(), [send]);
    var more := RunCanFinish(Appenders(), [send]);
    events := [send] + more;
    FailedForIff(Appenders(), events, SentAs(Appenders(), events, 0));
    QuiescentMeansReplied(Appenders(), events, 0);
  }

  /** Over all runs: every client that sends along a chain receives what the hops of the chain
      compute in order exactly when the chain is a single hop. */
  lemma ClientsReceiveAllIff(chain: seq<PeerId>)
    requires chain != []
    ensures (forall engines, events, i: nat :: Answered(engines, events, i, chain) ==> ReceivesAll(engines, events, i, chain)) <==>
              |Dedup(chain)| == 1
  {
    if |Dedup(chain)| == 1 {
      forall engines, events: seq<Event>, i: nat | Answered(engines, events, i, chain)
        ensures ReceivesAll(engines, events, i, chain)
      {
        ClientGetsOwnAnswer(engines, events, i);
        OneHopCarriesAll(engines, chain, events[i].requestId, events[i].tensor);
      }
    } else {
      var events := SomeRunAnswers(chain);
      ClientGetsOwnAnswer(Appenders(), events, 0);
      LongerChainLosesHops(chain, events[0].requestId, events[0].tensor);
      assert !ReceivesAll(Appenders(), events, 0, chain);
    }
  }
}
