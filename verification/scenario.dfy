/**
 * The signalling exchange the relay exists for, followed event by event: two
 * peers connect and register, A offers to B, B answers A, A disconnects, and
 * a later offer to A's old id is dropped.
 */
module SignalingScenario {
  import opened Json
  import opened Signaling

  const Sdp := Str("v=0")

  /** `{action: 'start'}`. */
  const StartMessage := Object(map["action" := StartAction])

  /** `{action, data: {remoteId, sdp}}`. */
  function Routed(action: string, remoteId: string): Value
  {
    Object(map["action" := Str(action), "data" := Object(map["remoteId" := Str(remoteId), "sdp" := Sdp])])
  }

  /** What the peer receives: `{action, data}` with the given data fields. */
  function Delivered(action: string, data: map<string, Value>): Value
  {
    Object(map["action" := Str(action), "data" := Object(data)])
  }

  /** Both peers connect and send `start`. */
  const Registration := [
    Connect, Connect,
    Message(0, Some(StartMessage), "A1"),
    Message(1, Some(StartMessage), "B1")
  ]

  /** A offers to B, B answers A. */
  const Negotiation := [
    Message(0, Some(Routed("offer", "B1")), "t1"),
    Message(1, Some(Routed("answer", "A1")), "t2")
  ]

  const OfferToB := Delivered("offer", map["remoteId" := Str("A1"), "sdp" := Sdp])
  const AnswerToA := Delivered("answer", map["sdp" := Sdp])

  /** The sockets after both peers have registered. */
  const Registered := [Socket(Some("A1"), Open, [Reply("A1")]), Socket(Some("B1"), Open, [Reply("B1")])]
  /** ... after A's offer to B. */
  const Offered := [Registered[0], Socket(Some("B1"), Open, [Reply("B1"), OfferToB])]
  /** ... after B's answer to A. */
  const Answered := [Socket(Some("A1"), Open, [Reply("A1"), AnswerToA]), Offered[1]]

  /** Each peer connects and sends `start`; each receives its own id. */
  lemma BothRegister()
    ensures Run([], Registration) == Registered
  {
    var a0 := Socket(None, Open, []);
    var c3 := [Registered[0], a0];
    assert Apply([], Registration[0]) == [a0];
    assert Apply([a0], Registration[1]) == [a0, a0];
    assert Apply([a0, a0], Registration[2]) == c3;
    assert Apply(c3, Registration[3]) == Registered;
    assert Run(Registered, []) == Registered;
    assert Run(c3, Registration[3..]) == Registered;
    assert Run([a0, a0], Registration[2..]) == Registered;
    assert Run([a0], Registration[1..]) == Registered;
  }

  /** A's offer reaches B with `remoteId` replaced by A's id. */
  lemma OfferReachesB()
    ensures Apply(Registered, Negotiation[0]) == Offered
  {
    var msg := Routed("offer", "B1");
    var data := map["remoteId" := Str("B1"), "sdp" := Sdp];
    assert Get(msg, "action") == Some(OfferAction);
    assert Get(msg, "data") == Some(Object(data));
    assert Get(Object(data), "remoteId") == Some(Str("B1"));
    assert data["remoteId" := Str("A1")] == map["remoteId" := Str("A1"), "sdp" := Sdp];
    assert msg.fields["data" := Object(data["remoteId" := Str("A1")])] == OfferToB.fields;
    assert Rewrite(msg, Some("A1")) == OfferToB;
    assert GetSocketById(Registered, Str("B1")) == Some(1);
    assert [Reply("B1")] + [OfferToB] == [Reply("B1"), OfferToB];
    assert Registered[1 := Emit(Registered[1], OfferToB)] == Offered;
    assert Step(Registered, 0, msg, "t1") == (Offered, Forwarded(1));
  }

  /** B's answer reaches A with `remoteId` removed. */
  lemma AnswerReachesA()
    ensures Apply(Offered, Negotiation[1]) == Answered
  {
    var msg := Routed("answer", "A1");
    var data := map["remoteId" := Str("A1"), "sdp" := Sdp];
    assert Get(msg, "action") == Some(Str("answer"));
    assert Get(msg, "data") == Some(Object(data));
    assert Get(Object(data), "remoteId") == Some(Str("A1"));
    assert data - {"remoteId"} == map["sdp" := Sdp];
    assert msg.fields["data" := Object(data - {"remoteId"})] == AnswerToA.fields;
    assert Rewrite(msg, Some("B1")) == AnswerToA;
    assert GetSocketById(Offered, Str("A1")) == Some(0);
    assert [Reply("A1")] + [AnswerToA] == [Reply("A1"), AnswerToA];
    assert Offered[0 := Emit(Offered[0], AnswerToA)] == Answered;
    assert Step(Offered, 1, msg, "t2") == (Answered, Forwarded(0));
  }

  /**
   * After the exchange, A holds `A1` and has received its reply and B's answer
   * without `remoteId`; B holds `B1` and has received its reply and A's offer
   * with `remoteId` set to `A1`.
   */
  lemma OfferAnswerExchange()
    ensures Run([], Registration + Negotiation) == Answered
  {
    BothRegister();
    OfferReachesB();
    AnswerReachesA();
    RunConcatenates([], Registration, Negotiation);
    assert Run(Answered, Negotiation[2..]) == Answered;
    assert Run(Offered, Negotiation[1..]) == Answered;
  }

  /** Once A has disconnected, an offer from B to `A1` reaches no one and changes nothing. */
  lemma ClosedPeerUnreachable()
    ensures Apply(Answered, Disconnect(0)) == [Answered[1]]
    ensures Apply([Answered[1]], Message(0, Some(Routed("offer", "A1")), "t3")) == [Answered[1]]
  {
  }

  /** Running two stretches of events one after the other is running them together. */
  lemma {:induction false} RunConcatenates(clients: seq<Socket>, first: seq<Event>, second: seq<Event>)
    ensures Run(clients, first + second) == Run(Run(clients, first), second)
    decreases |first|
  {
    if first == [] {
      assert first + second == second;
    } else {
      assert (first + second)[1..] == first[1..] + second;
      RunConcatenates(Apply(clients, first[0]), first[1..], second);
    }
  }
}
