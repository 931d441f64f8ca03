/**
 A hop that fails is not seen as a failure by the client: it takes the empty reply for a response.
 */
module FailedHops {
  import opened Common
  import opened Forwarding

  /** A client sends, the first peer forwards, the network fails the forwarded request, and the
      first peer's reply returns. */
  function SecondHopFails(send: Event): seq<Event> {
    [send, Deliver(0), Fail(1), Return(0)]
  }

  /** On every chain of two hops or more there is a run in which the client receives the empty reply
      with id 0 as it would receive an answer, and nothing fails for the client itself. */
  lemma EmptyReplyIsReceived(engines: PeerId -> Option<Engine>, send: Event)
    requires send.Send? && |Dedup(send.chain)| >= 2
    ensures Possible(engines, SecondHopFails(send))
    ensures After(engines, SecondHopFails(send)).received == map[0 := Response(0, Tensor(F32, [], []))]
    ensures SentAs(engines, SecondHopFails(send), 0) == 0
  {
    var events := SecondHopFails(send);
    assert events[..0] == [] && events[..1] == [send] && events[..2] == [send, Deliver(0)];
    assert events[..3] == [send, Deliver(0), Fail(1)];
    var w1 := AfterSend(engines, send);
    var w2 := AfterForward(engines, send, w1);
    var w3 := AfterFailure(engines, send, w2);
    assert [send, Deliver(0), Fail(1), Return(0)][..3] == [send, Deliver(0), Fail(1)];
    assert Enabled(w3, Return(0));
  }

  lemma AfterSend(engines: PeerId -> Option<Engine>, send: Event) returns (w: World)
    requires send.Send? && |Dedup(send.chain)| >= 2
    ensures Possible(engines, [send]) && w == After(engines, [send])
    ensures var route := Dedup(send.chain);
            w == World([Exchange(Client(send.client), route[0], Request(route, 0, send.requestId, send.tensor, send.mask),
                                 Undelivered, true, 0)],
                       map[], map[], [], {}, 0)
  {
    assert [send][..0] == [];
    w := After(engines, [send]);
  }

  lemma AfterForward(engines: PeerId -> Option<Engine>, send: Event, w1: World) returns (w: World)
    requires send.Send? && |Dedup(send.chain)| >= 2
    requires Possible(engines, [send]) && w1 == After(engines, [send])
    requires var route := Dedup(send.chain);
             w1 == World([Exchange(Client(send.client), route[0], Request(route, 0, send.requestId, send.tensor, send.mask),
                                   Undelivered, true, 0)],
                         map[], map[], [], {}, 0)
    ensures Possible(engines, [send, Deliver(0)]) && w == After(engines, [send, Deliver(0)])
    ensures |w.exchanges| == 2 && w.exchanges[0] == w1.exchanges[0].(service := Held) && w.received == map[]
    ensures w.exchanges[1].src == Peer(w1.exchanges[0].dst) && w.exchanges[1].waiting && w.exchanges[1].origin == 0
    ensures PendingOf(w, w1.exchanges[0].dst) == map[1 := 0]
  {
    assert [send, Deliver(0)][..1] == [send];
    w := After(engines, [send, Deliver(0)]);
  }

  lemma AfterFailure(engines: PeerId -> Option<Engine>, send: Event, w2: World) returns (w: World)
    requires Possible(engines, [send, Deliver(0)]) && w2 == After(engines, [send, Deliver(0)])
    requires |w2.exchanges| == 2 && w2.exchanges[0].src.Client? && w2.exchanges[0].waiting && w2.received == map[]
    requires w2.exchanges[1].src.Peer? && w2.exchanges[1].waiting
    requires PendingOf(w2, w2.exchanges[1].src.peer) == map[1 := 0]
    ensures Possible(engines, [send, Deliver(0), Fail(1)]) && w == After(engines, [send, Deliver(0), Fail(1)])
    ensures |w.exchanges| == 2 && w.received == map[]
    ensures w.exchanges[0] == w2.exchanges[0].(service := Replied(Response(0, Tensor(F32, [], []))))
  {
    assert [send, Deliver(0), Fail(1)][..2] == [send, Deliver(0)];
    w := After(engines, [send, Deliver(0), Fail(1)]);
  }
}
