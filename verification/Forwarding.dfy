/**
 The forwarding of requests along a chain of workers.

 The first part models what one worker does with a request, a response or a failure; the
 second runs any number of clients and workers concurrently and proves that their requests do
 not interfere.
 */
module Forwarding {
  import opened Common

  newtype Byte = x: int | 0 <= x < 256

  datatype Dtype = F32 | F16 | BF16

  datatype Tensor = Tensor(dtype: Dtype, shape: seq<nat>, data: seq<Byte>)

  datatype Request = Request(route: seq<PeerId>, hop: nat, requestId: nat, tensor: Tensor, mask: Option<Tensor>) {
    /** `hop_index == route.len().saturating_sub(1)` */
    predicate IsTerminal() {
      hop == if |route| == 0 then 0 else |route| - 1
    }
  }

  datatype Response = Response(requestId: nat, tensor: Tensor)

  const FAILURE := Response(0, Tensor(F32, [], []))

  /** A compute engine maps a tensor to output bytes, or fails. */
  type Engine = Tensor -> Option<seq<Byte>>

  // ---------------------------------------------------------------- chains

  ghost predicate NoRepeats(chain: seq<PeerId>) {
    forall i :: 0 < i < |chain| ==> chain[i - 1] != chain[i]
  }

  /** Each run of equal peers collapsed to one. */
  function Dedup(chain: seq<PeerId>): (r: seq<PeerId>)
    ensures NoRepeats(r) && (r == [] <==> chain == [])
  {
    if chain == [] then []
    else
      var front := Dedup(chain[..|chain| - 1]);
      var peer := chain[|chain| - 1];
      if front == [] || front[|front| - 1] != peer then front + [peer] else front
  }

  /** Collapsing loses and adds no peer, and keeps the ends. */
  lemma DedupKeepsPeers(chain: seq<PeerId>)
    ensures forall p :: p in Dedup(chain) <==> p in chain
    ensures chain != [] ==>
              Dedup(chain)[0] == chain[0] && Dedup(chain)[|Dedup(chain)| - 1] == chain[|chain| - 1]
  {
    forall p ensures p in Dedup(chain) <==> p in chain {
      DedupKeepsPeer(chain, p);
    }
    if chain != [] {
      DedupKeepsEnds(chain);
    }
  }

  lemma {:induction false} DedupKeepsPeer(chain: seq<PeerId>, p: PeerId)
    ensures p in Dedup(chain) <==> p in chain
  {
    if chain != [] {
      var front := chain[..|chain| - 1];
      DedupKeepsPeer(front, p);
      assert chain == front + [chain[|chain| - 1]];
    }
  }

  lemma {:induction false} DedupKeepsEnds(chain: seq<PeerId>)
    requires chain != []
    ensures Dedup(chain)[0] == chain[0] && Dedup(chain)[|Dedup(chain)| - 1] == chain[|chain| - 1]
  {
    if |chain| > 1 {
      DedupKeepsEnds(chain[..|chain| - 1]);
    }
  }

  /** A chain without repeats is left alone, and a repeat makes no difference: together these
      determine the collapsed chain. */
  lemma {:induction false} DedupFixes(chain: seq<PeerId>)
    requires NoRepeats(chain)
    ensures Dedup(chain) == chain
  {
    if chain != [] {
      var front := chain[..|chain| - 1];
      DedupFixes(front);
      assert chain == front + [chain[|chain| - 1]];
    }
  }

  lemma {:induction false} DedupForgetsRepeat(before: seq<PeerId>, peer: PeerId, after: seq<PeerId>)
    ensures Dedup(before + [peer, peer] + after) == Dedup(before + [peer] + after)
    decreases after
  {
    var twice, once := before + [peer, peer] + after, before + [peer] + after;
    if after == [] {
      assert twice[..|twice| - 1] == once;
    } else {
      var front := after[..|after| - 1];
      DedupForgetsRepeat(before, peer, front);
      assert twice[..|twice| - 1] == before + [peer, peer] + front;
      assert once[..|once| - 1] == before + [peer] + front;
    }
  }

  method DedupChain(chain: seq<PeerId>) returns (acc: seq<PeerId>)
    ensures acc == Dedup(chain)
  {
    acc := [];
    for i := 0 to |chain|
      invariant acc == Dedup(chain[..i])
    {
      assert chain[..i + 1][..i] == chain[..i];
      if acc == [] || acc[|acc| - 1] != chain[i] {
        acc := acc + [chain[i]];
      }
    }
    assert chain[..|chain|] == chain;
  }

  // ---------------------------------------------------------------- one worker

  datatype Action =
    | Reply(channel: nat, response: Response)
    | Forward(to: PeerId, request: Request)
    | Nothing
    | Panic

  /** The answer of the terminal hop: the engine's output under the request's own id, dtype and
      shape, the empty tensor if the engine fails, and the request's tensor without an engine. */
  function TerminalReply(engine: Option<Engine>, requestId: nat, tensor: Tensor): Response {
    match engine
    case None => Response(requestId, tensor)
    case Some(run) =>
      match run(tensor)
      case Some(output) => Response(requestId, tensor.(data := output))
      case None => Response(requestId, Tensor(F32, [], []))
  }

  /** `build_next_request`; indexing the route is a panic when there is no next hop. */
  function BuildNextRequest(request: Request): Option<(PeerId, Request)> {
    if request.hop + 1 < |request.route|
    then Some((request.route[request.hop + 1], request.(hop := request.hop + 1)))
    else None
  }

  function HandleRequest(engine: Option<Engine>, request: Request, channel: nat): Action {
    if request.IsTerminal() then Reply(channel, TerminalReply(engine, request.requestId, request.tensor))
    else
      match BuildNextRequest(request)
      case Some((next, nextRequest)) => Forward(next, nextRequest)
      case None => Panic
  }

  /** A response or failure for an outbound request goes up the channel stored for it. */
  function HandleSettled(pending: map<nat, nat>, outbound: nat, response: Response): Action {
    if outbound in pending then Reply(pending[outbound], response) else Nothing
  }

  /** The event loop of a worker: `pendingForwards` maps outbound request ids to the channels
      of the requests that caused them. */
  class Worker {
    const engine: Option<Engine>
    var pendingForwards: map<nat, nat>

    constructor (engine: Option<Engine>)
      ensures this.engine == engine && pendingForwards == map[]
    {
      this.engine := engine;
      pendingForwards := map[];
    }

    method OnRequest(request: Request, channel: nat, outbound: nat) returns (action: Action)
      modifies this
      ensures action == HandleRequest(engine, request, channel)
      ensures var r, last := request, request.hop + 1 == |request.route| || (request.hop == 0 && request.route == []);
              && (last && engine == None ==> action == Reply(channel, Response(r.requestId, r.tensor)))
              && (last && engine.Some? && engine.value(r.tensor).Some? ==>
                    action == Reply(channel, Response(r.requestId, r.tensor.(data := engine.value(r.tensor).value))))
              && (last && engine.Some? && engine.value(r.tensor) == None ==>
                    action == Reply(channel, Response(r.requestId, Tensor(F32, [], []))))
              && (!last && r.hop + 1 < |r.route| ==> action == Forward(r.route[r.hop + 1], r.(hop := r.hop + 1)))
              && (!last && r.hop + 1 > |r.route| ==> action == Panic)
      ensures pendingForwards ==
                if action.Forward? then old(pendingForwards)[outbound := channel] else old(pendingForwards)
    {
      if request.IsTerminal() {
        action := Reply(channel, TerminalReply(engine, request.requestId, request.tensor));
      } else {
        var next := BuildNextRequest(request);
        if next.Some? {
          action := Forward(next.value.0, next.value.1);
          pendingForwards := pendingForwards[outbound := channel];
        } else {
          action := Panic;
        }
      }
    }

    method OnResponse(outbound: nat, response: Response) returns (action: Action)
      modifies this
      ensures action == HandleSettled(old(pendingForwards), outbound, response)
      ensures outbound in old(pendingForwards) ==> action == Reply(old(pendingForwards)[outbound], response)
      ensures outbound !in old(pendingForwards) ==> action == Nothing
      ensures pendingForwards == old(pendingForwards) - {outbound}
    {
      action := Nothing;
      if outbound in pendingForwards {
        action := Reply(pendingForwards[outbound], response);
      }
      pendingForwards := pendingForwards - {outbound};
    }

    method OnOutboundFailure(outbound: nat) returns (action: Action)
      modifies this
      ensures action == HandleSettled(old(pendingForwards), outbound, FAILURE)
      ensures outbound in old(pendingForwards) ==>
                action == Reply(old(pendingForwards)[outbound], Response(0, Tensor(F32, [], [])))
      ensures outbound !in old(pendingForwards) ==> action == Nothing
      ensures pendingForwards == old(pendingForwards) - {outbound}
    {
      action := Nothing;
      if outbound in pendingForwards {
        action := Reply(pendingForwards[outbound], FAILURE);
      }
      pendingForwards := pendingForwards - {outbound};
    }
  }

  // ---------------------------------------------------------------- the network

  datatype Party = Client(id: nat) | Peer(peer: PeerId)

  /** What the serving side has done with a request. */
  datatype Service = Undelivered | Held | Replied(response: Response)

  /** One request and its response: `waiting` until the requester sees a response or a failure.
      Its index in the table stands for the outbound id and for the response channel.  `origin`
      is the exchange of the client's send that it descends from. */
  datatype Exchange = Exchange(
    src: Party, dst: PeerId, request: Request, service: Service, waiting: bool, origin: nat)

  datatype World = World(
    exchanges: seq<Exchange>,
    pending: map<PeerId, map<nat, nat>>,
    received: map<nat, Response>,
    answered: seq<nat>,       // the channels that replies were sent on, in order
    failedFor: set<nat>,      // the origins of the requests that the network reported as failed
    panics: nat)

  const INITIAL := World([], map[], map[], [], {}, 0)

  /** A client sends along the chain it resolved; a request reaches its peer; a response reaches
      its requester; the network reports a request as failed. */
  datatype Event =
    | Send(client: nat, chain: seq<PeerId>, requestId: nat, tensor: Tensor, mask: Option<Tensor>)
    | Deliver(x: nat)
    | Return(x: nat)
    | Fail(x: nat)

  function PendingOf(w: World, p: PeerId): map<nat, nat> {
    if p in w.pending then w.pending[p] else map[]
  }

  /** A request may be delivered even after its requester gave up; a requester sees at most one
      response or failure. */
  predicate Enabled(w: World, e: Event) {
    match e
    case Send(_, chain, _, _, _) => chain != []
    case Deliver(x) => x < |w.exchanges| && w.exchanges[x].service.Undelivered?
    case Return(x) => x < |w.exchanges| && w.exchanges[x].service.Replied? && w.exchanges[x].waiting
    case Fail(x) => x < |w.exchanges| && w.exchanges[x].waiting
  }

  function Serve(w: World, x: nat, service: Service): World
    requires x < |w.exchanges|
  {
    w.(exchanges := w.exchanges[x := w.exchanges[x].(service := service)])
  }

  /** A reply is sent on the channel of exchange `x`. */
  function Answer(w: World, x: nat, response: Response): World
    requires x < |w.exchanges|
  {
    Serve(w, x, Replied(response)).(answered := w.answered + [x])
  }

  /** A requester sees a response or failure: a worker acts on it, a client keeps a response. */
  function Settle(w: World, x: nat, response: Response, failed: bool): World
    requires x < |w.exchanges|
  {
    var w1 := w.(exchanges := w.exchanges[x := w.exchanges[x].(waiting := false)]);
    match w.exchanges[x].src
    case Client(_) => if failed then w1 else w1.(received := w1.received[x := response])
    case Peer(p) =>
      var w2 := w1.(pending := w1.pending[p := PendingOf(w1, p) - {x}]);
      match HandleSettled(PendingOf(w1, p), x, response)
      case Reply(up, r) => if up < |w2.exchanges| then Answer(w2, up, r) else w2
      case _ => w2
  }

  function Apply(engines: PeerId -> Option<Engine>, w: World, e: Event): World
    requires Enabled(w, e)
  {
    match e
    case Send(client, chain, requestId, tensor, mask) =>
      var route := Dedup(chain);
      w.(exchanges := w.exchanges +
           [Exchange(Client(client), route[0], Request(route, 0, requestId, tensor, mask), Undelivered, true, |w.exchanges|)])
    case Deliver(x) =>
      var ex := w.exchanges[x];
      (match HandleRequest(engines(ex.dst), ex.request, x)
       case Reply(channel, response) => Answer(w, x, response)
       case Forward(next, request) =>
         var w1 := Serve(w, x, Held);
         w1.(exchanges := w1.exchanges + [Exchange(Peer(ex.dst), next, request, Undelivered, true, ex.origin)],
             pending := w1.pending[ex.dst := PendingOf(w1, ex.dst)[|w1.exchanges| := x]])
       case _ => Serve(w, x, Held).(panics := w.panics + 1))
    case Return(x) => Settle(w, x, w.exchanges[x].service.response, false)
    case Fail(x) => Settle(w, x, FAILURE, true).(failedFor := w.failedFor + {w.exchanges[x].origin})
  }

  /** The worlds that runs lead to. */
  ghost predicate Possible(engines: PeerId -> Option<Engine>, events: seq<Event>)
    decreases |events|, 0
  {
    events == [] ||
    var front := events[..|events| - 1];
    Possible(engines, front) && Enabled(After(engines, front), events[|events| - 1])
  }

  ghost function After(engines: PeerId -> Option<Engine>, events: seq<Event>): World
    requires Possible(engines, events)
    decreases |events|, 1
  {
    if events == [] then INITIAL
    else Apply(engines, After(engines, events[..|events| - 1]), events[|events| - 1])
  }

  // ---------------------------------------------------------------- the invariant

  /** Who may have sent a request, and to whom. */
  ghost predicate Addressed(ex: Exchange) {
    && var r := ex.request;
       r.hop < |r.route| && NoRepeats(r.route) && ex.dst == r.route[r.hop]
       && (if r.hop == 0 then ex.src.Client? else ex.src == Peer(r.route[r.hop - 1]))
  }

  /** A fit reply to an exchange is the answer of the last peer of its route to its own tensor,
      or, once a request with the same origin has failed, the failure signal. */
  ghost predicate FitReply(engines: PeerId -> Option<Engine>, r: Request, origin: nat, failedFor: set<nat>,
                           response: Response)
    requires r.route != []
  {
    || response == TerminalReply(engines(r.route[|r.route| - 1]), r.requestId, r.tensor)
    || (origin in failedFor && response == FAILURE)
  }

  /** Worker `p` forwarded the request it holds as exchange `up` as exchange `y`. */
  ghost predicate Linked(w: World, p: PeerId, y: nat, up: nat) {
    && up < y < |w.exchanges|
    && w.exchanges[y].src == Peer(p) && w.exchanges[y].waiting
    && w.exchanges[up].dst == p && w.exchanges[up].service == Held
    && w.exchanges[y].request == w.exchanges[up].request.(hop := w.exchanges[up].request.hop + 1)
    && w.exchanges[y].origin == w.exchanges[up].origin
  }

  ghost predicate ExchangesFit(engines: PeerId -> Option<Engine>, w: World) {
    forall x :: 0 <= x < |w.exchanges| ==> ExchangeFit(engines, w.exchanges[x], w.failedFor)
  }

  ghost predicate ExchangeFit(engines: PeerId -> Option<Engine>, ex: Exchange, failedFor: set<nat>) {
    Addressed(ex) && (ex.service.Replied? ==> FitReply(engines, ex.request, ex.origin, failedFor, ex.service.response))
  }

  ghost predicate LinksHold(w: World) {
    forall p: PeerId, y :: y in PendingOf(w, p) ==> Linked(w, p, y, PendingOf(w, p)[y])
  }

  /** No channel is stored twice. */
  ghost predicate ChannelsDistinct(w: World) {
    forall p: PeerId, y, z :: y in PendingOf(w, p) && z in PendingOf(w, p) && PendingOf(w, p)[y] == PendingOf(w, p)[z] ==>
      y == z
  }

  /** A worker that waits for a response remembers whom to answer, and a worker that holds a
      request waits for a response. */
  ghost predicate WaitersKnown(w: World) {
    && (forall y :: 0 <= y < |w.exchanges| && w.exchanges[y].waiting && w.exchanges[y].src.Peer? ==>
          y in PendingOf(w, w.exchanges[y].src.peer))
    && forall x :: 0 <= x < |w.exchanges| && w.exchanges[x].service == Held ==>
          exists y :: y in PendingOf(w, w.exchanges[x].dst) && PendingOf(w, w.exchanges[x].dst)[y] == x
  }

  ghost predicate ReceivedFit(engines: PeerId -> Option<Engine>, w: World) {
    forall x :: x in w.received ==>
      && x < |w.exchanges| && w.exchanges[x].src.Client? && w.exchanges[x].request.route != []
      && w.exchanges[x].service == Replied(w.received[x])
      && FitReply(engines, w.exchanges[x].request, w.exchanges[x].origin, w.failedFor, w.received[x])
  }

  /** Replies went out on the channels that have one, and on each of them once. */
  ghost predicate AnsweredOnce(w: World) {
    && (forall i, j :: 0 <= i < j < |w.answered| ==> w.answered[i] != w.answered[j])
    && (forall x :: x in w.answered ==> x < |w.exchanges|)
    && (forall x :: 0 <= x < |w.exchanges| ==> (x in w.answered <==> w.exchanges[x].service.Replied?))
  }

  ghost predicate Inv(engines: PeerId -> Option<Engine>, w: World) {
    && w.panics == 0 && ExchangesFit(engines, w) && LinksHold(w) && ChannelsDistinct(w)
    && WaitersKnown(w) && ReceivedFit(engines, w) && AnsweredOnce(w)
  }

  lemma SendKeepsInv(engines: PeerId -> Option<Engine>, w: World, e: Event)
    requires Inv(engines, w) && Enabled(w, e) && e.Send?
    ensures Inv(engines, Apply(engines, w, e))
  {
    var w' := Apply(engines, w, e);
    assert forall p: PeerId :: PendingOf(w', p) == PendingOf(w, p);
    SendKeepsLinks(engines, w, e);
    SendKeepsWaiters(engines, w, e);
    hide LinksHold, ChannelsDistinct, WaitersKnown;
  }

  lemma SendKeepsLinks(engines: PeerId -> Option<Engine>, w: World, e: Event)
    requires Inv(engines, w) && Enabled(w, e) && e.Send?
    ensures LinksHold(Apply(engines, w, e)) && ChannelsDistinct(Apply(engines, w, e))
  {
    hide ExchangesFit, ReceivedFit, WaitersKnown, AnsweredOnce;
    assert forall p: PeerId :: PendingOf(Apply(engines, w, e), p) == PendingOf(w, p);
  }

  lemma SendKeepsWaiters(engines: PeerId -> Option<Engine>, w: World, e: Event)
    requires Inv(engines, w) && Enabled(w, e) && e.Send?
    ensures WaitersKnown(Apply(engines, w, e))
  {
    hide ExchangesFit, ReceivedFit, LinksHold, ChannelsDistinct, AnsweredOnce;
    assert forall p: PeerId :: PendingOf(Apply(engines, w, e), p) == PendingOf(w, p);
  }

  lemma TerminalKeepsExchanges(engines: PeerId -> Option<Engine>, w: World, x: nat)
    requires Inv(engines, w) && Enabled(w, Deliver(x)) && w.exchanges[x].request.IsTerminal()
    ensures ExchangesFit(engines, Apply(engines, w, Deliver(x))) && ReceivedFit(engines, Apply(engines, w, Deliver(x)))
  {
    hide LinksHold, ChannelsDistinct, WaitersKnown;
    assert ExchangeFit(engines, w.exchanges[x], w.failedFor);
  }

  lemma TerminalKeepsInv(engines: PeerId -> Option<Engine>, w: World, x: nat)
    requires Inv(engines, w) && Enabled(w, Deliver(x)) && w.exchanges[x].request.IsTerminal()
    ensures Inv(engines, Apply(engines, w, Deliver(x)))
  {
    var w' := Apply(engines, w, Deliver(x));
    var ex := w.exchanges[x];
    assert ExchangeFit(engines, ex, w.failedFor);
    assert forall p: PeerId :: PendingOf(w', p) == PendingOf(w, p);
    TerminalKeepsExchanges(engines, w, x);
    AnswerKeepsOnce(w, x, w');
    hide AnsweredOnce, ExchangeFit, FitReply;
    forall p: PeerId, y | y in PendingOf(w, p) ensures Linked(w', p, y, PendingOf(w, p)[y]) {
      assert Linked(w, p, y, PendingOf(w, p)[y]);
    }
  }

  /** A reply to exchange `x`, which had none, is the only change in who has a reply. */
  ghost predicate AnswersOne(w: World, x: nat, w': World) {
    && x < |w.exchanges| == |w'.exchanges| && !w.exchanges[x].service.Replied? && w'.answered == w.answered + [x]
    && forall u :: 0 <= u < |w.exchanges| ==>
         (w'.exchanges[u].service.Replied? <==> u == x || w.exchanges[u].service.Replied?)
  }

  lemma AnswerKeepsOnce(w: World, x: nat, w': World)
    requires AnsweredOnce(w) && AnswersOne(w, x, w')
    ensures AnsweredOnce(w')
  {
  }

  /** What forwarding the request of exchange `x` changes. */
  ghost predicate ForwardedFrom(w: World, x: nat, w': World) {
    && x < |w.exchanges| && |w'.exchanges| == |w.exchanges| + 1
    && var ex, y := w.exchanges[x], |w.exchanges|;
       && ex.request.hop + 1 < |ex.request.route|
       && w'.exchanges[x] == ex.(service := Held)
       && w'.exchanges[y] == Exchange(Peer(ex.dst), ex.request.route[ex.request.hop + 1],
                                      ex.request.(hop := ex.request.hop + 1), Undelivered, true, ex.origin)
       && (forall u :: 0 <= u < y && u != x ==> w'.exchanges[u] == w.exchanges[u])
       && (forall p: PeerId :: p != ex.dst ==> PendingOf(w', p) == PendingOf(w, p))
       && PendingOf(w', ex.dst) == PendingOf(w, ex.dst)[y := x]
       && w'.received == w.received && w'.answered == w.answered
       && w'.failedFor == w.failedFor && w'.panics == w.panics
  }

  lemma ForwardKeepsLinks(engines: PeerId -> Option<Engine>, w: World, x: nat, w': World)
    requires Inv(engines, w) && ForwardedFrom(w, x, w') && w.exchanges[x].service.Undelivered?
    ensures LinksHold(w')
  {
    hide Linked, ExchangesFit, ReceivedFit, WaitersKnown, AnsweredOnce, ChannelsDistinct;
    var ex, y := w.exchanges[x], |w.exchanges|;
    ForwardLinks(w, x, w');
    forall p: PeerId, z | z in PendingOf(w', p) ensures Linked(w', p, z, PendingOf(w', p)[z]) {
      if !(p == ex.dst && z == y) {
        assert z in PendingOf(w, p);
        ForwardKeepsLink(w, x, w', p, z, PendingOf(w, p)[z]);
      }
    }
  }

  lemma ForwardLinks(w: World, x: nat, w': World)
    requires ForwardedFrom(w, x, w')
    ensures Linked(w', w.exchanges[x].dst, |w.exchanges|, x)
  {
  }

  lemma ForwardKeepsLink(w: World, x: nat, w': World, p: PeerId, z: nat, up: nat)
    requires ForwardedFrom(w, x, w') && w.exchanges[x].service.Undelivered? && Linked(w, p, z, up)
    ensures Linked(w', p, z, up)
  {
  }

  lemma ForwardKeepsDistinct(engines: PeerId -> Option<Engine>, w: World, x: nat, w': World)
    requires Inv(engines, w) && ForwardedFrom(w, x, w') && w.exchanges[x].service.Undelivered?
    ensures ChannelsDistinct(w')
  {
    hide ExchangesFit, ReceivedFit, WaitersKnown, AnsweredOnce;
    forall z | z in PendingOf(w, w.exchanges[x].dst) ensures PendingOf(w, w.exchanges[x].dst)[z] != x {
      assert Linked(w, w.exchanges[x].dst, z, PendingOf(w, w.exchanges[x].dst)[z]);
    }
  }

  lemma ForwardKeepsWaiters(engines: PeerId -> Option<Engine>, w: World, x: nat, w': World)
    requires Inv(engines, w) && ForwardedFrom(w, x, w') && w.exchanges[x].service.Undelivered?
    ensures WaitersKnown(w')
  {
    var ex, y := w.exchanges[x], |w.exchanges|;
    forall z | 0 <= z < |w'.exchanges| && w'.exchanges[z].waiting && w'.exchanges[z].src.Peer?
      ensures z in PendingOf(w', w'.exchanges[z].src.peer)
    {
      assert z < y ==> w.exchanges[z].waiting && w.exchanges[z].src == w'.exchanges[z].src;
    }
    forall u | 0 <= u < |w'.exchanges| && w'.exchanges[u].service == Held
      ensures exists z :: z in PendingOf(w', w'.exchanges[u].dst) && PendingOf(w', w'.exchanges[u].dst)[z] == u
    {
      if u == x {
        assert y in PendingOf(w', ex.dst) && PendingOf(w', ex.dst)[y] == x;
      } else {
        assert w.exchanges[u].service == Held;
        var z :| z in PendingOf(w, w.exchanges[u].dst) && PendingOf(w, w.exchanges[u].dst)[z] == u;
        assert Linked(w, w.exchanges[u].dst, z, u);
        assert z in PendingOf(w', w.exchanges[u].dst) && PendingOf(w', w.exchanges[u].dst)[z] == u;
      }
    }
  }

  lemma ForwardKeepsExchanges(engines: PeerId -> Option<Engine>, w: World, x: nat, w': World)
    requires Inv(engines, w) && ForwardedFrom(w, x, w') && w.exchanges[x].service.Undelivered?
    ensures ExchangesFit(engines, w') && ReceivedFit(engines, w')
  {
    hide LinksHold, WaitersKnown, ChannelsDistinct, FitReply;
    assert ExchangeFit(engines, w.exchanges[x], w.failedFor);
    forall u | 0 <= u < |w'.exchanges| ensures ExchangeFit(engines, w'.exchanges[u], w'.failedFor) {
      if u < |w.exchanges| {
        assert ExchangeFit(engines, w.exchanges[u], w.failedFor);
      }
    }
  }

  lemma ForwardKeepsOnce(engines: PeerId -> Option<Engine>, w: World, x: nat, w': World)
    requires Inv(engines, w) && ForwardedFrom(w, x, w') && w.exchanges[x].service.Undelivered?
    ensures AnsweredOnce(w') && w'.panics == 0
  {
    hide ExchangesFit, LinksHold, ChannelsDistinct, WaitersKnown, ReceivedFit;
  }

  lemma DeliverForwards(engines: PeerId -> Option<Engine>, w: World, x: nat)
    requires Inv(engines, w) && Enabled(w, Deliver(x)) && !w.exchanges[x].request.IsTerminal()
    ensures ForwardedFrom(w, x, Apply(engines, w, Deliver(x)))
  {
    hide LinksHold, WaitersKnown, ChannelsDistinct, ReceivedFit;
    assert ExchangeFit(engines, w.exchanges[x], w.failedFor);
  }

  lemma ForwardKeepsInv(engines: PeerId -> Option<Engine>, w: World, x: nat)
    requires Inv(engines, w) && Enabled(w, Deliver(x)) && !w.exchanges[x].request.IsTerminal()
    ensures ForwardedFrom(w, x, Apply(engines, w, Deliver(x)))
    ensures Inv(engines, Apply(engines, w, Deliver(x)))
  {
    hide Apply, ForwardedFrom, ExchangesFit, LinksHold, ChannelsDistinct, WaitersKnown, ReceivedFit, AnsweredOnce;
    var w' := Apply(engines, w, Deliver(x));
    DeliverForwards(engines, w, x);
    ForwardKeepsOnce(engines, w, x, w');
    ForwardKeepsLinks(engines, w, x, w');
    ForwardKeepsDistinct(engines, w, x, w');
    ForwardKeepsWaiters(engines, w, x, w');
    ForwardKeepsExchanges(engines, w, x, w');
  }

  /** What a settled exchange `x` of worker `p` changes: the reply goes up the channel `up`. */
  ghost predicate SettledFor(w: World, x: nat, p: PeerId, up: nat, response: Response, w': World) {
    && Linked(w, p, x, up) && |w'.exchanges| == |w.exchanges|
    && x in PendingOf(w, p) && PendingOf(w, p)[x] == up
    && w'.exchanges[x] == w.exchanges[x].(waiting := false)
    && w'.exchanges[up] == w.exchanges[up].(service := Replied(response))
    && (forall u :: 0 <= u < |w.exchanges| && u != x && u != up ==> w'.exchanges[u] == w.exchanges[u])
    && (forall q: PeerId :: q != p ==> PendingOf(w', q) == PendingOf(w, q))
    && PendingOf(w', p) == PendingOf(w, p) - {x}
    && w'.received == w.received && w'.answered == w.answered + [up]
    && w.failedFor <= w'.failedFor && w'.panics == w.panics
  }

  lemma SettleKeepsLinks(engines: PeerId -> Option<Engine>, w: World, x: nat, p: PeerId, up: nat,
                         response: Response, w': World)
    requires Inv(engines, w) && SettledFor(w, x, p, up, response, w')
    ensures LinksHold(w')
  {
    hide Linked, ExchangesFit, ReceivedFit, WaitersKnown, AnsweredOnce;
    forall q: PeerId, z | z in PendingOf(w', q) ensures Linked(w', q, z, PendingOf(w', q)[z]) {
      assert z in PendingOf(w, q) && Linked(w, q, z, PendingOf(w, q)[z]);
      SettleKeepsLink(w, x, p, up, response, w', q, z, PendingOf(w, q)[z]);
    }
  }

  /** A link of another exchange, on another channel, is not touched. */
  lemma SettleKeepsLink(w: World, x: nat, p: PeerId, up: nat, response: Response, w': World, q: PeerId, z: nat, up': nat)
    requires SettledFor(w, x, p, up, response, w') && Linked(w, q, z, up')
    requires z in PendingOf(w', q) && PendingOf(w, q)[z] == up' && ChannelsDistinct(w)
    ensures Linked(w', q, z, up')
  {
  }

  lemma SettleKeepsDistinct(engines: PeerId -> Option<Engine>, w: World, x: nat, p: PeerId, up: nat,
                            response: Response, w': World)
    requires Inv(engines, w) && SettledFor(w, x, p, up, response, w')
    ensures ChannelsDistinct(w')
  {
    hide ExchangesFit, ReceivedFit, WaitersKnown, AnsweredOnce, LinksHold;
  }

  lemma SettleKeepsWaiters(engines: PeerId -> Option<Engine>, w: World, x: nat, p: PeerId, up: nat,
                           response: Response, w': World)
    requires Inv(engines, w) && SettledFor(w, x, p, up, response, w')
    ensures WaitersKnown(w')
  {
    hide LinksHold, ExchangesFit, ChannelsDistinct, ReceivedFit;
    forall z | 0 <= z < |w'.exchanges| && w'.exchanges[z].waiting && w'.exchanges[z].src.Peer?
      ensures z in PendingOf(w', w'.exchanges[z].src.peer)
    {
      assert w.exchanges[z].waiting && w.exchanges[z].src == w'.exchanges[z].src;
    }
    forall u | 0 <= u < |w'.exchanges| && w'.exchanges[u].service == Held
      ensures exists z :: z in PendingOf(w', w'.exchanges[u].dst) && PendingOf(w', w'.exchanges[u].dst)[z] == u
    {
      assert w.exchanges[u].service == Held && w.exchanges[u].dst == w'.exchanges[u].dst;
      var z :| z in PendingOf(w, w.exchanges[u].dst) && PendingOf(w, w.exchanges[u].dst)[z] == u;
      assert z in PendingOf(w', w.exchanges[u].dst) && PendingOf(w', w.exchanges[u].dst)[z] == u;
    }
  }

  lemma SettleKeepsExchanges(engines: PeerId -> Option<Engine>, w: World, x: nat, p: PeerId, up: nat,
                             response: Response, w': World)
    requires Inv(engines, w) && SettledFor(w, x, p, up, response, w')
    requires w.exchanges[x].request.route != [] && FitReply(engines, w.exchanges[x].request, w.exchanges[x].origin, w'.failedFor, response)
    ensures ExchangesFit(engines, w') && ReceivedFit(engines, w')
  {
    hide LinksHold, WaitersKnown, ChannelsDistinct, FitReply;
    forall y | y in w'.received
      ensures FitReply(engines, w.exchanges[y].request, w.exchanges[y].origin, w'.failedFor, w.received[y])
    {
      ReplyStaysFit(engines, w.exchanges[y].request, w.exchanges[y].origin, w.failedFor, w'.failedFor, w.received[y]);
    }
    forall u | 0 <= u < |w'.exchanges| ensures ExchangeFit(engines, w'.exchanges[u], w'.failedFor) {
      FitStays(engines, w.exchanges[u], w.failedFor, w'.failedFor);
      if u == up {
        SameRouteFit(engines, w.exchanges[x].request, w.exchanges[up].request, w.exchanges[x].origin, w'.failedFor, response);
      }
    }
  }

  lemma ReplyStaysFit(engines: PeerId -> Option<Engine>, r: Request, origin: nat, failed: set<nat>, failed': set<nat>,
                      response: Response)
    requires failed <= failed' && r.route != [] && FitReply(engines, r, origin, failed, response)
    ensures FitReply(engines, r, origin, failed', response)
  {
  }

  lemma FitStays(engines: PeerId -> Option<Engine>, ex: Exchange, failed: set<nat>, failed': set<nat>)
    requires failed <= failed' && ExchangeFit(engines, ex, failed)
    ensures ExchangeFit(engines, ex, failed')
  {
  }

  /** What is a fit reply does not depend on the hop. */
  lemma SameRouteFit(engines: PeerId -> Option<Engine>, r: Request, r': Request, origin: nat, failed: set<nat>,
                     response: Response)
    requires r == r'.(hop := r.hop) && r.route != []
    ensures FitReply(engines, r, origin, failed, response) <==> FitReply(engines, r', origin, failed, response)
  {
  }

  lemma WaiterIsLinked(w: World, x: nat)
    requires LinksHold(w) && WaitersKnown(w) && x < |w.exchanges| && w.exchanges[x].waiting && w.exchanges[x].src.Peer?
    ensures x in PendingOf(w, w.exchanges[x].src.peer)
    ensures Linked(w, w.exchanges[x].src.peer, x, PendingOf(w, w.exchanges[x].src.peer)[x])
  {
  }

  lemma WorkerSettles(w: World, x: nat, response: Response, failed: bool)
    requires LinksHold(w) && WaitersKnown(w) && x < |w.exchanges| && w.exchanges[x].waiting && w.exchanges[x].src.Peer?
    ensures x in PendingOf(w, w.exchanges[x].src.peer)
    ensures var p := w.exchanges[x].src.peer;
            var w1 := Settle(w, x, response, failed);
            SettledFor(w, x, p, PendingOf(w, p)[x], response, w1)
  {
    hide LinksHold, WaitersKnown, SettledFor, Linked;
    WaiterIsLinked(w, x);
    var p := w.exchanges[x].src.peer;
    var up := PendingOf(w, p)[x];
    LinkedBelow(w, p, x, up);
    PassesUp(w, x, p, up, response);
    assert Settle(w, x, response, failed) == PassUp(w, x, p, up, response);
  }

  lemma LinkedBelow(w: World, p: PeerId, y: nat, up: nat)
    requires Linked(w, p, y, up)
    ensures up < y < |w.exchanges|
  {
  }

  /** Worker `p` waits no more for exchange `x` and answers on the channel of exchange `up`. */
  function PassUp(w: World, x: nat, p: PeerId, up: nat, response: Response): World
    requires x < |w.exchanges| && up < |w.exchanges|
  {
    Answer(w.(exchanges := w.exchanges[x := w.exchanges[x].(waiting := false)],
              pending := w.pending[p := PendingOf(w, p) - {x}]), up, response)
  }

  lemma PassesUp(w: World, x: nat, p: PeerId, up: nat, response: Response)
    requires Linked(w, p, x, up) && x in PendingOf(w, p) && PendingOf(w, p)[x] == up
    ensures SettledFor(w, x, p, up, response, PassUp(w, x, p, up, response))
  {
    var w' := PassUp(w, x, p, up, response);
    assert PendingOf(w', p) == PendingOf(w, p) - {x};
    assert forall q: PeerId :: q != p ==> PendingOf(w', q) == PendingOf(w, q);
  }

  lemma MoreFailures(w: World, x: nat, p: PeerId, up: nat, response: Response, w': World, origin: nat)
    requires SettledFor(w, x, p, up, response, w')
    ensures SettledFor(w, x, p, up, response, w'.(failedFor := w.failedFor + {origin}))
  {
    var w'' := w'.(failedFor := w.failedFor + {origin});
    assert forall q: PeerId :: PendingOf(w'', q) == PendingOf(w', q);
  }

  lemma WorkerSettleKeepsInv(engines: PeerId -> Option<Engine>, w: World, x: nat, response: Response,
                             w': World)
    requires Inv(engines, w) && x < |w.exchanges| && w.exchanges[x].waiting && w.exchanges[x].src.Peer?
    requires x in PendingOf(w, w.exchanges[x].src.peer)
    requires SettledFor(w, x, w.exchanges[x].src.peer, PendingOf(w, w.exchanges[x].src.peer)[x], response, w')
    requires w.exchanges[x].service == Replied(response) || (response == FAILURE && w.exchanges[x].origin in w'.failedFor)
    ensures Inv(engines, w')
  {
    var p := w.exchanges[x].src.peer;
    var up := PendingOf(w, p)[x];
    assert ExchangeFit(engines, w.exchanges[x], w.failedFor);
    SettleKeepsLinks(engines, w, x, p, up, response, w');
    SettleKeepsDistinct(engines, w, x, p, up, response, w');
    SettleKeepsWaiters(engines, w, x, p, up, response, w');
    SettleKeepsExchanges(engines, w, x, p, up, response, w');
    AnswerKeepsOnce(w, up, w');
  }

  /** What a settled exchange `x` of a client changes. */
  ghost predicate ClientSettled(engines: PeerId -> Option<Engine>, w: World, x: nat, w': World) {
    && x < |w.exchanges| && w.exchanges[x].src.Client?
    && w'.exchanges == w.exchanges[x := w.exchanges[x].(waiting := false)]
    && w'.pending == w.pending && w'.answered == w.answered
    && w.failedFor <= w'.failedFor && w'.panics == w.panics
    && (w'.received == w.received
        || (w.exchanges[x].service.Replied? && w'.received == w.received[x := w.exchanges[x].service.response]))
  }

  lemma ClientSettleKeepsLinks(engines: PeerId -> Option<Engine>, w: World, x: nat, w': World)
    requires Inv(engines, w) && ClientSettled(engines, w, x, w')
    ensures LinksHold(w') && ChannelsDistinct(w') && WaitersKnown(w')
  {
    hide ExchangesFit, ReceivedFit;
    assert forall q: PeerId :: PendingOf(w', q) == PendingOf(w, q);
    forall q: PeerId, z | z in PendingOf(w', q) ensures Linked(w', q, z, PendingOf(w', q)[z]) {
      assert Linked(w, q, z, PendingOf(w, q)[z]);
    }
    forall u | 0 <= u < |w'.exchanges| && w'.exchanges[u].service == Held
      ensures exists z :: z in PendingOf(w', w'.exchanges[u].dst) && PendingOf(w', w'.exchanges[u].dst)[z] == u
    {
      assert w.exchanges[u].service == Held && w.exchanges[u].dst == w'.exchanges[u].dst;
    }
  }

  lemma ClientSettleKeepsExchanges(engines: PeerId -> Option<Engine>, w: World, x: nat, w': World)
    requires Inv(engines, w) && ClientSettled(engines, w, x, w')
    ensures ExchangesFit(engines, w') && ReceivedFit(engines, w')
  {
    hide LinksHold, ChannelsDistinct, WaitersKnown, AnsweredOnce, FitReply;
    assert ExchangeFit(engines, w.exchanges[x], w.failedFor);
    forall u | 0 <= u < |w'.exchanges| ensures ExchangeFit(engines, w'.exchanges[u], w'.failedFor) {
      FitStays(engines, w.exchanges[u], w.failedFor, w'.failedFor);
    }
    forall y | y in w.received
      ensures FitReply(engines, w.exchanges[y].request, w.exchanges[y].origin, w'.failedFor, w.received[y])
    {
      ReplyStaysFit(engines, w.exchanges[y].request, w.exchanges[y].origin, w.failedFor, w'.failedFor, w.received[y]);
    }
    FitStays(engines, w.exchanges[x], w.failedFor, w'.failedFor);
  }

  lemma ClientSettleKeepsInv(engines: PeerId -> Option<Engine>, w: World, x: nat, w': World)
    requires Inv(engines, w) && ClientSettled(engines, w, x, w')
    ensures Inv(engines, w')
  {
    ClientSettleKeepsLinks(engines, w, x, w');
    ClientSettleKeepsExchanges(engines, w, x, w');
    hide LinksHold, ChannelsDistinct, WaitersKnown, ExchangesFit, ReceivedFit;
  }

  lemma ReturnKeepsInv(engines: PeerId -> Option<Engine>, w: World, x: nat)
    requires Inv(engines, w) && Enabled(w, Return(x))
    ensures Inv(engines, Apply(engines, w, Return(x)))
  {
    var w' := Apply(engines, w, Return(x));
    if w.exchanges[x].src.Client? {
      ClientSettleKeepsInv(engines, w, x, w');
    } else {
      WorkerSettles(w, x, w.exchanges[x].service.response, false);
      WorkerSettleKeepsInv(engines, w, x, w.exchanges[x].service.response, w');
    }
  }

  lemma FailKeepsInv(engines: PeerId -> Option<Engine>, w: World, x: nat)
    requires Inv(engines, w) && Enabled(w, Fail(x))
    ensures Inv(engines, Apply(engines, w, Fail(x)))
  {
    var w' := Apply(engines, w, Fail(x));
    if w.exchanges[x].src.Client? {
      ClientSettleKeepsInv(engines, w, x, w');
    } else {
      WorkerSettles(w, x, FAILURE, true);
      var p := w.exchanges[x].src.peer;
      MoreFailures(w, x, p, PendingOf(w, p)[x], FAILURE, Settle(w, x, FAILURE, true), w.exchanges[x].origin);
      WorkerSettleKeepsInv(engines, w, x, FAILURE, w');
    }
  }

  /** Every step of every client and worker, and every failure, keeps the invariant. */
  lemma StepKeepsInv(engines: PeerId -> Option<Engine>, w: World, e: Event)
    requires Inv(engines, w) && Enabled(w, e)
    ensures Inv(engines, Apply(engines, w, e))
  {
    match e
    case Send(_, _, _, _, _) => SendKeepsInv(engines, w, e);
    case Deliver(x) => DeliverKeepsInv(engines, w, x);
    case Return(x) => ReturnKeepsInv(engines, w, x);
    case Fail(x) => FailKeepsInv(engines, w, x);
  }

  lemma DeliverKeepsInv(engines: PeerId -> Option<Engine>, w: World, x: nat)
    requires Inv(engines, w) && Enabled(w, Deliver(x))
    ensures Inv(engines, Apply(engines, w, Deliver(x)))
  {
    if w.exchanges[x].request.IsTerminal() {
      TerminalKeepsInv(engines, w, x);
    } else {
      ForwardKeepsInv(engines, w, x);
    }
  }

  lemma {:induction false} RunKeepsInv(engines: PeerId -> Option<Engine>, events: seq<Event>)
    requires Possible(engines, events)
    ensures Inv(engines, After(engines, events))
  {
    if events != [] {
      hide Inv, Apply, Enabled;
      var front := events[..|events| - 1];
      RunKeepsInv(engines, front);
      StepKeepsInv(engines, After(engines, front), events[|events| - 1]);
    }
  }

  // ---------------------------------------------------------------- safety over whole runs

  /** What no step changes: who asked whom for what, a reply once given, and a settled wait. */
  ghost predicate Extends(w: World, w': World) {
    && |w.exchanges| <= |w'.exchanges| && w.failedFor <= w'.failedFor && w.answered <= w'.answered
    && forall x :: 0 <= x < |w.exchanges| ==> SameExchange(w.exchanges[x], w'.exchanges[x])
  }

  ghost predicate SameExchange(ex: Exchange, ex': Exchange) {
    && ex.src == ex'.src && ex.dst == ex'.dst && ex.request == ex'.request && ex.origin == ex'.origin
    && (ex.service.Replied? ==> ex'.service == ex.service)
    && (ex.service.Held? ==> !ex'.service.Undelivered?)
    && (!ex.waiting ==> !ex'.waiting)
  }

  lemma SettledExtends(w: World, x: nat, p: PeerId, up: nat, response: Response, w': World)
    requires SettledFor(w, x, p, up, response, w')
    ensures Extends(w, w')
  {
  }

  lemma ForwardedExtends(w: World, x: nat, w': World)
    requires ForwardedFrom(w, x, w') && w.exchanges[x].service.Undelivered?
    ensures Extends(w, w')
  {
  }

  lemma SettleExtends(engines: PeerId -> Option<Engine>, w: World, x: nat, response: Response, failed: bool)
    requires Inv(engines, w) && x < |w.exchanges| && w.exchanges[x].waiting
    ensures Extends(w, Settle(w, x, response, failed))
    ensures |Settle(w, x, response, failed).exchanges| == |w.exchanges|
  {
    if w.exchanges[x].src.Peer? {
      var p := w.exchanges[x].src.peer;
      WorkerSettles(w, x, response, failed);
      SettledExtends(w, x, p, PendingOf(w, p)[x], response, Settle(w, x, response, failed));
    }
  }

  lemma StepExtends(engines: PeerId -> Option<Engine>, w: World, e: Event)
    requires Inv(engines, w) && Enabled(w, e)
    ensures Extends(w, Apply(engines, w, e))
  {
    match e
    case Send(_, _, _, _, _) =>
    case Deliver(x) =>
      if !w.exchanges[x].request.IsTerminal() {
        ForwardKeepsInv(engines, w, x);
        ForwardedExtends(w, x, Apply(engines, w, e));
      }
    case Return(x) => SettleExtends(engines, w, x, w.exchanges[x].service.response, false);
    case Fail(x) => SettleExtends(engines, w, x, FAILURE, true);
  }

  lemma {:induction false} PrefixPossible(engines: PeerId -> Option<Engine>, events: seq<Event>, i: nat)
    requires Possible(engines, events) && i <= |events|
    ensures Possible(engines, events[..i])
    decreases |events|
  {
    if i < |events| {
      PrefixPossible(engines, events[..|events| - 1], i);
      assert events[..|events| - 1][..i] == events[..i];
    } else {
      assert events[..i] == events;
    }
  }

  /** A run only extends the worlds it passes: each upstream channel is answered at most once,
      and an answer is never altered. */
  lemma {:induction false} RunExtends(engines: PeerId -> Option<Engine>, events: seq<Event>, i: nat)
    requires Possible(engines, events) && i <= |events|
    ensures Possible(engines, events[..i])
    ensures Extends(After(engines, events[..i]), After(engines, events))
    decreases |events|
  {
    PrefixPossible(engines, events, i);
    if i < |events| {
      var front := events[..|events| - 1];
      RunExtends(engines, front, i);
      assert front[..i] == events[..i];
      RunKeepsInv(engines, front);
      var w, w' := After(engines, front), After(engines, events);
      StepExtends(engines, w, events[|events| - 1]);
      ExtendsTransitive(After(engines, events[..i]), w, w');
    } else {
      assert events[..i] == events;
    }
  }

  lemma ExtendsTransitive(w1: World, w2: World, w3: World)
    requires Extends(w1, w2) && Extends(w2, w3)
    ensures Extends(w1, w3)
  {
    forall x | 0 <= x < |w1.exchanges| ensures SameExchange(w1.exchanges[x], w3.exchanges[x]) {
      assert SameExchange(w1.exchanges[x], w2.exchanges[x]) && SameExchange(w2.exchanges[x], w3.exchanges[x]);
    }
  }

  /** The id of the exchange that event `i` of a run opened, if it was a send. */
  ghost function SentAs(engines: PeerId -> Option<Engine>, events: seq<Event>, i: nat): nat
    requires Possible(engines, events) && i < |events|
  {
    PrefixPossible(engines, events, i);
    |After(engines, events[..i]).exchanges|
  }

  /** The exchange opened by a send carries that send's own request for ever. */
  lemma SentRequest(engines: PeerId -> Option<Engine>, events: seq<Event>, i: nat)
    requires Possible(engines, events) && i < |events| && events[i].Send?
    ensures var x, e := SentAs(engines, events, i), events[i];
            && x < |After(engines, events).exchanges| && e.chain != []
            && After(engines, events).exchanges[x].src == Client(e.client)
            && After(engines, events).exchanges[x].origin == x
            && After(engines, events).exchanges[x].request == Request(Dedup(e.chain), 0, e.requestId, e.tensor, e.mask)
  {
    var x := SentAs(engines, events, i);
    var prefix := events[..i + 1];
    RunExtends(engines, events, i + 1);
    assert prefix[..i] == events[..i] && prefix[|prefix| - 1] == events[i];
    assert SameExchange(After(engines, prefix).exchanges[x], After(engines, events).exchanges[x]);
  }

  /** Non-interference: however clients and workers interleave, share workers, revisit them and
      reuse request ids, a response to a request is the answer of the last peer of its chain to
      its own tensor, or the failure signal if a request that descends from it has failed. */
  lemma ClientGetsOwnAnswer(engines: PeerId -> Option<Engine>, events: seq<Event>, i: nat)
    requires Possible(engines, events) && i < |events| && events[i].Send?
    requires SentAs(engines, events, i) in After(engines, events).received
    ensures events[i].chain != []
    ensures var e, x, w := events[i], SentAs(engines, events, i), After(engines, events);
            || w.received[x] == TerminalReply(engines(e.chain[|e.chain| - 1]), e.requestId, e.tensor)
            || (x in w.failedFor && w.received[x] == Response(0, Tensor(F32, [], [])))
    ensures var x, w := SentAs(engines, events, i), After(engines, events);
            x < |w.exchanges| && w.exchanges[x].service == Replied(w.received[x])
  {
    RunKeepsInv(engines, events);
    SentRequest(engines, events, i);
    DedupKeepsPeers(events[i].chain);
  }

  /** Event `j` of a run is the failure of a request that descends from the exchange `origin`. */
  ghost predicate FailsFor(w: World, e: Event, origin: nat) {
    e.Fail? && e.x < |w.exchanges| && w.exchanges[e.x].origin == origin
  }

  ghost predicate FailedAmong(w: World, events: seq<Event>, origin: nat) {
    exists j :: 0 <= j < |events| && FailsFor(w, events[j], origin)
  }

  /** Exactly the failures of its own descendants count against a send. */
  lemma {:induction false} FailedForIff(engines: PeerId -> Option<Engine>, events: seq<Event>, origin: nat)
    requires Possible(engines, events)
    ensures origin in After(engines, events).failedFor <==> FailedAmong(After(engines, events), events, origin)
  {
    hide Inv, Apply, Enabled, FailedAmong, Extends, FailuresInRange;
    NoFailureYet(origin);
    if events != [] {
      var front, e := events[..|events| - 1], events[|events| - 1];
      var w, w' := After(engines, front), After(engines, events);
      FailedForIff(engines, front, origin);
      RunKeepsInv(engines, front);
      StepExtends(engines, w, e);
      StepFails(engines, w, e);
      FailuresAreInRange(engines, front);
      assert events == front + [e];
      OneMoreEvent(w, w', front, e, origin);
    }
  }

  lemma OneMoreEvent(w: World, w': World, front: seq<Event>, e: Event, origin: nat)
    requires Extends(w, w') && FailuresInRange(w, front) && Enabled(w, e)
    ensures FailedAmong(w', front + [e], origin) <==>
              FailedAmong(w, front, origin) || (e.Fail? && w.exchanges[e.x].origin == origin)
  {
    var events := front + [e];
    assert events[|front|] == e && forall j :: 0 <= j < |front| ==> front[j] == events[j];
    forall x: nat | x < |w.exchanges| ensures w'.exchanges[x].origin == w.exchanges[x].origin {
      assert SameExchange(w.exchanges[x], w'.exchanges[x]);
    }
    if FailedAmong(w, front, origin) {
      var j :| 0 <= j < |front| && FailsFor(w, front[j], origin);
      assert FailsFor(w', events[j], origin);
    } else if e.Fail? && w.exchanges[e.x].origin == origin {
      assert FailsFor(w', events[|front|], origin);
    }
    if FailedAmong(w', events, origin) {
      var j :| 0 <= j < |events| && FailsFor(w', events[j], origin);
      assert j < |front| ==> FailsFor(w, front[j], origin);
    }
  }

  lemma StepFails(engines: PeerId -> Option<Engine>, w: World, e: Event)
    requires Inv(engines, w) && Enabled(w, e)
    ensures Apply(engines, w, e).failedFor ==
              if e.Fail? then w.failedFor + {w.exchanges[e.x].origin} else w.failedFor
  {
  }

  ghost predicate FailuresInRange(w: World, events: seq<Event>) {
    forall j :: 0 <= j < |events| && events[j].Fail? ==> events[j].x < |w.exchanges|
  }

  lemma {:induction false} FailuresAreInRange(engines: PeerId -> Option<Engine>, events: seq<Event>)
    requires Possible(engines, events)
    ensures FailuresInRange(After(engines, events), events)
  {
    hide Inv, Apply, Enabled, Extends, FailuresInRange;
    NoFailureYet(0);
    if events != [] {
      var front, e := events[..|events| - 1], events[|events| - 1];
      FailuresAreInRange(engines, front);
      RunKeepsInv(engines, front);
      StepExtends(engines, After(engines, front), e);
      RangeGrows(After(engines, front), After(engines, events), front, e);
      assert events == front + [e];
    }
  }

  lemma NoFailureYet(origin: nat)
    ensures FailuresInRange(INITIAL, []) && !FailedAmong(INITIAL, [], origin)
  {
  }

  lemma RangeGrows(w: World, w': World, front: seq<Event>, e: Event)
    requires Extends(w, w') && FailuresInRange(w, front) && Enabled(w, e)
    ensures FailuresInRange(w', front + [e])
  {
  }

  /** Each channel is answered at most once, and the channels answered are those with a reply. */
  lemma ChannelsAreAnsweredOnce(engines: PeerId -> Option<Engine>, events: seq<Event>)
    requires Possible(engines, events)
    ensures AnsweredOnce(After(engines, events))
  {
    RunKeepsInv(engines, events);
  }

  /** Route discipline: no worker indexes past a route or dials itself, and whatever is in
      flight is the request of the client's send that it descends from, at a later hop and at
      that hop's peer. */
  lemma {:induction false} InFlightIsAClientsRequest(engines: PeerId -> Option<Engine>, events: seq<Event>, x: nat)
    requires Possible(engines, events) && x < |After(engines, events).exchanges|
    ensures After(engines, events).panics == 0
    ensures After(engines, events).exchanges[x].origin <= x
    ensures var w := After(engines, events);
            var ex, client := w.exchanges[x], w.exchanges[w.exchanges[x].origin];
            && ex.src != Peer(ex.dst)
            && client.src.Client? && client.origin == ex.origin
            && ex.request == client.request.(hop := ex.request.hop)
            && ex.request.hop < |ex.request.route| && ex.dst == ex.request.route[ex.request.hop]
    decreases |events|
  {
    RunKeepsInv(engines, events);
    var w := After(engines, events);
    assert ExchangeFit(engines, w.exchanges[x], w.failedFor);
    var front, e := events[..|events| - 1], events[|events| - 1];
    var w0 := After(engines, front);
    RunKeepsInv(engines, front);
    StepExtends(engines, w0, e);
    if x < |w0.exchanges| {
      InFlightIsAClientsRequest(engines, front, x);
      var origin := w0.exchanges[x].origin;
      assert SameExchange(w0.exchanges[x], w.exchanges[x]) && SameExchange(w0.exchanges[origin], w.exchanges[origin]);
    } else if !e.Send? {
      NewExchangeIsForward(engines, w0, e, x);
      InFlightIsAClientsRequest(engines, front, e.x);
      var origin := w0.exchanges[e.x].origin;
      assert SameExchange(w0.exchanges[origin], w.exchanges[origin]);
    }
  }

  lemma NewExchangeIsForward(engines: PeerId -> Option<Engine>, w: World, e: Event, x: nat)
    requires Inv(engines, w) && Enabled(w, e) && !e.Send?
    requires |w.exchanges| <= x < |Apply(engines, w, e).exchanges|
    ensures e.Deliver? && e.x < |w.exchanges| <= x
    ensures Apply(engines, w, e).exchanges[x].request == w.exchanges[e.x].request.(hop := w.exchanges[e.x].request.hop + 1)
    ensures Apply(engines, w, e).exchanges[x].origin == w.exchanges[e.x].origin
  {
    if e.Return? || e.Fail? {
      SettleExtends(engines, w, e.x, if e.Fail? then FAILURE else w.exchanges[e.x].service.response, e.Fail?);
    }
  }

  // ---------------------------------------------------------------- termination

  /** The steps that an exchange can still cause: two a hop still to go, and one to settle it. */
  ghost function WorkOf(ex: Exchange): int {
    (if ex.service.Undelivered? then 2 * (|ex.request.route| - ex.request.hop) else 0)
    + (if ex.waiting then 1 else 0)
  }

  ghost function Work(exchanges: seq<Exchange>): int {
    if exchanges == [] then 0
    else Work(exchanges[..|exchanges| - 1]) + WorkOf(exchanges[|exchanges| - 1])
  }

  /** Work that grows nowhere shrinks by what it shrinks at `x`. */
  lemma {:induction false} WorkDrops(a: seq<Exchange>, b: seq<Exchange>, x: nat)
    requires |a| == |b| && x < |a|
    requires forall i :: 0 <= i < |a| ==> WorkOf(b[i]) <= WorkOf(a[i])
    ensures Work(b) + WorkOf(a[x]) - WorkOf(b[x]) <= Work(a)
  {
    var n := |a| - 1;
    if x < n {
      WorkDrops(a[..n], b[..n], x);
    } else if n > 0 {
      WorkDrops(a[..n], b[..n], 0);
      assert a[..n][0] == a[0] && b[..n][0] == b[0];
    }
  }

  lemma WorkGrows(a: seq<Exchange>, ex: Exchange)
    ensures Work(a + [ex]) == Work(a) + WorkOf(ex)
  {
    assert (a + [ex])[..|a|] == a;
  }

  lemma {:induction false} WorkNonNegative(exchanges: seq<Exchange>)
    requires forall i :: 0 <= i < |exchanges| ==> exchanges[i].request.hop < |exchanges[i].request.route|
    ensures Work(exchanges) >= 0
  {
    if exchanges != [] {
      WorkNonNegative(exchanges[..|exchanges| - 1]);
    }
  }

  lemma SettleWorks(engines: PeerId -> Option<Engine>, w: World, x: nat, response: Response, failed: bool)
    requires Inv(engines, w) && x < |w.exchanges| && w.exchanges[x].waiting
    ensures Work(Settle(w, x, response, failed).exchanges) < Work(w.exchanges)
  {
    var w' := Settle(w, x, response, failed);
    if w.exchanges[x].src.Peer? {
      WorkerSettles(w, x, response, failed);
    }
    WorkDrops(w.exchanges, w'.exchanges, x);
  }

  lemma TerminalWorks(engines: PeerId -> Option<Engine>, w: World, x: nat)
    requires Inv(engines, w) && Enabled(w, Deliver(x)) && w.exchanges[x].request.IsTerminal()
    ensures Work(Apply(engines, w, Deliver(x)).exchanges) < Work(w.exchanges)
  {
    assert ExchangeFit(engines, w.exchanges[x], w.failedFor);
    WorkDrops(w.exchanges, Apply(engines, w, Deliver(x)).exchanges, x);
  }

  lemma ForwardWorks(w: World, x: nat, w': World)
    requires ForwardedFrom(w, x, w') && w.exchanges[x].service.Undelivered?
    ensures Work(w'.exchanges) < Work(w.exchanges)
  {
    var served := w'.exchanges[..|w.exchanges|];
    assert w'.exchanges == served + [w'.exchanges[|w.exchanges|]];
    WorkGrows(served, w'.exchanges[|w.exchanges|]);
    WorkDrops(w.exchanges, served, x);
  }

  /** Every step except a client's send uses up work. */
  lemma StepWorks(engines: PeerId -> Option<Engine>, w: World, e: Event)
    requires Inv(engines, w) && Enabled(w, e)
    ensures e.Send? ==> Work(Apply(engines, w, e).exchanges) == Work(w.exchanges) + 2 * |Dedup(e.chain)| + 1
    ensures !e.Send? ==> Work(Apply(engines, w, e).exchanges) < Work(w.exchanges)
  {
    var w' := Apply(engines, w, e);
    match e
    case Send(_, _, _, _, _) => WorkGrows(w.exchanges, w'.exchanges[|w.exchanges|]);
    case Deliver(x) =>
      if w.exchanges[x].request.IsTerminal() {
        TerminalWorks(engines, w, x);
      } else {
        ForwardKeepsInv(engines, w, x);
        ForwardWorks(w, x, w');
      }
    case Return(x) => SettleWorks(engines, w, x, w.exchanges[x].service.response, false);
    case Fail(x) => SettleWorks(engines, w, x, FAILURE, true);
  }

  /** The number of steps that are not sends. */
  ghost function Steps(events: seq<Event>): nat {
    if events == [] then 0
    else Steps(events[..|events| - 1]) + if events[|events| - 1].Send? then 0 else 1
  }

  /** Two for each hop of each route sent, and one for each send. */
  ghost function Budget(events: seq<Event>): nat {
    if events == [] then 0
    else
      var e := events[|events| - 1];
      Budget(events[..|events| - 1]) + if e.Send? then 2 * |Dedup(e.chain)| + 1 else 0
  }

  /** A run takes no more steps than twice the hops of the routes sent, plus one a send. */
  lemma {:induction false} StepsAreBounded(engines: PeerId -> Option<Engine>, events: seq<Event>)
    requires Possible(engines, events)
    ensures Steps(events) + Work(After(engines, events).exchanges) <= Budget(events)
    ensures Steps(events) <= Budget(events)
  {
    if events != [] {
      var front := events[..|events| - 1];
      StepsAreBounded(engines, front);
      RunKeepsInv(engines, front);
      StepWorks(engines, After(engines, front), events[|events| - 1]);
    }
    WorkIsNatural(engines, events);
  }

  /** As long as someone waits, some request can be delivered or some response returned. */
  lemma {:induction false} SomeoneCanMove(engines: PeerId -> Option<Engine>, w: World, x: nat) returns (e: Event)
    requires Inv(engines, w) && x < |w.exchanges| && w.exchanges[x].waiting
    ensures Enabled(w, e) && (e.Deliver? || e.Return?)
    decreases |w.exchanges| - x
  {
    match w.exchanges[x].service
    case Undelivered => e := Deliver(x);
    case Replied(_) => e := Return(x);
    case Held =>
      var y :| y in PendingOf(w, w.exchanges[x].dst) && PendingOf(w, w.exchanges[x].dst)[y] == x;
      assert Linked(w, w.exchanges[x].dst, y, x);
      e := SomeoneCanMove(engines, w, y);
  }

  /** No request is left to deliver and no response to return. */
  ghost predicate Quiescent(w: World) {
    forall x :: 0 <= x < |w.exchanges| ==> !Enabled(w, Deliver(x)) && !Enabled(w, Return(x))
  }

  /** A client that waits no more for exchange `x` has its response, unless a request that
      descends from the exchange has failed. */
  ghost predicate ResponseKnown(w: World, x: nat) {
    x < |w.exchanges| && w.exchanges[x].src.Client? && !w.exchanges[x].waiting ==>
      x in w.received || w.exchanges[x].origin in w.failedFor
  }

  lemma {:induction false} SettledClientsHaveResponses(engines: PeerId -> Option<Engine>, events: seq<Event>, x: nat)
    requires Possible(engines, events)
    ensures ResponseKnown(After(engines, events), x)
  {
    if events != [] {
      hide Inv, Apply, Enabled, ResponseKnown;
      var front := events[..|events| - 1];
      SettledClientsHaveResponses(engines, front, x);
      RunKeepsInv(engines, front);
      StepKeepsResponses(engines, After(engines, front), events[|events| - 1], x);
    }
  }

  lemma StepKeepsResponses(engines: PeerId -> Option<Engine>, w: World, e: Event, x: nat)
    requires Inv(engines, w) && Enabled(w, e) && ResponseKnown(w, x)
    ensures ResponseKnown(Apply(engines, w, e), x)
  {
    hide ExchangesFit, LinksHold, ChannelsDistinct, WaitersKnown, ReceivedFit, AnsweredOnce;
    match e
    case Send(_, _, _, _, _) =>
    case Deliver(y) =>
      if !w.exchanges[y].request.IsTerminal() {
        ForwardKeepsInv(engines, w, y);
      }
    case Return(y) =>
      if w.exchanges[y].src.Peer? {
        WorkerSettles(w, y, w.exchanges[y].service.response, false);
      }
    case Fail(y) =>
      if w.exchanges[y].src.Peer? {
        WorkerSettles(w, y, FAILURE, true);
      }
  }

  /** A run that can go no further has answered every client none of whose own requests failed,
      with the reply of the last peer of its chain. */
  lemma QuiescentMeansReplied(engines: PeerId -> Option<Engine>, events: seq<Event>, i: nat)
    requires Possible(engines, events) && Quiescent(After(engines, events)) && i < |events| && events[i].Send?
    requires SentAs(engines, events, i) !in After(engines, events).failedFor
    ensures var e, w, x := events[i], After(engines, events), SentAs(engines, events, i);
            && e.chain != [] && x in w.received
            && w.received[x] == TerminalReply(engines(e.chain[|e.chain| - 1]), e.requestId, e.tensor)
  {
    var w, x := After(engines, events), SentAs(engines, events, i);
    RunKeepsInv(engines, events);
    SentRequest(engines, events, i);
    if w.exchanges[x].waiting {
      var e := SomeoneCanMove(engines, w, x);
      assert false;
    }
    SettledClientsHaveResponses(engines, events, x);
    ClientGetsOwnAnswer(engines, events, i);
  }

  /** Such a client has its own tensor back if the last peer has no engine, the engine's output for
      its own tensor if there is one, and the empty tensor under its own id if the engine fails. */
  lemma QuiescentMeansAnswered(engines: PeerId -> Option<Engine>, events: seq<Event>, i: nat)
    requires Possible(engines, events) && Quiescent(After(engines, events)) && i < |events| && events[i].Send?
    requires SentAs(engines, events, i) !in After(engines, events).failedFor
    ensures events[i].chain != [] && SentAs(engines, events, i) in After(engines, events).received
    ensures var e, response := events[i], After(engines, events).received[SentAs(engines, events, i)];
            match engines(e.chain[|e.chain| - 1])
            case None => response == Response(e.requestId, e.tensor)
            case Some(run) =>
              if run(e.tensor).Some? then response == Response(e.requestId, e.tensor.(data := run(e.tensor).value))
              else response == Response(e.requestId, Tensor(F32, [], []))
  {
    hide Quiescent, Possible, After, SentAs;
    QuiescentMeansReplied(engines, events, i);
  }

  /** Every run can be finished without a further send or failure. */
  lemma {:induction false} RunCanFinish(engines: PeerId -> Option<Engine>, events: seq<Event>) returns (more: seq<Event>)
    requires Possible(engines, events)
    ensures Possible(engines, events + more) && Quiescent(After(engines, events + more))
    ensures forall j :: 0 <= j < |more| ==> more[j].Deliver? || more[j].Return?
    decreases WorkLeft(engines, events)
  {
    hide Inv, Apply, Enabled;
    var w := After(engines, events);
    if x: nat :| x < |w.exchanges| && (Enabled(w, Deliver(x)) || Enabled(w, Return(x))) {
      var e := if Enabled(w, Deliver(x)) then Deliver(x) else Return(x);
      var next := events + [e];
      assert next[..|next| - 1] == events;
      RunKeepsInv(engines, events);
      StepWorks(engines, w, e);
      var rest := RunCanFinish(engines, next);
      more := [e] + rest;
      assert events + more == next + rest;
    } else {
      more := [];
      assert events + more == events;
    }
  }

  ghost function WorkLeft(engines: PeerId -> Option<Engine>, events: seq<Event>): nat
    requires Possible(engines, events)
  {
    WorkIsNatural(engines, events);
    Work(After(engines, events).exchanges)
  }

  lemma WorkIsNatural(engines: PeerId -> Option<Engine>, events: seq<Event>)
    requires Possible(engines, events)
    ensures Work(After(engines, events).exchanges) >= 0
  {
    RunKeepsInv(engines, events);
    var w := After(engines, events);
    forall i | 0 <= i < |w.exchanges| ensures w.exchanges[i].request.hop < |w.exchanges[i].request.route| {
      assert ExchangeFit(engines, w.exchanges[i], w.failedFor);
    }
    WorkNonNegative(w.exchanges);
  }
}
