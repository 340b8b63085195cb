/** What a map server achieves once both ends take their turns: the counterpart of the agreement theorems. */
module RegistrationProgress {
  import opened Prelude
  import opened Domain
  import opened Handlers
  import opened Registration

  /** The state after these steps, one after the other. */
  function After(env: Env, v: Details, d: Duo, es: seq<Event>): Result
    decreases |es|
  {
    if es == [] then Next(d)
    else
      var r := Step(env, v, d, es[0]);
      if r.Off? then Off else After(env, v, r.d, es[1..])
  }

  lemma AfterOne(env: Env, v: Details, d: Duo, e: Event, d': Duo, es: seq<Event>)
    requires Step(env, v, d, e) == Next(d')
    ensures After(env, v, d, [e] + es) == After(env, v, d', es)
  {
    hide Step;
    assert ([e] + es)[1..] == es;
  }

  lemma AfterTwo(env: Env, v: Details, d: Duo, e1: Event, d1: Duo, e2: Event, d2: Duo)
    requires Step(env, v, d, e1) == Next(d1) && Step(env, v, d1, e2) == Next(d2)
    ensures After(env, v, d, [e1, e2]) == Next(d2)
  {
    hide Step;
    AfterOne(env, v, d, e1, d1, [e2]);
    AfterOne(env, v, d1, e2, d2, []);
    assert [e1] + [e2] == [e1, e2] && [e2] + [] == [e2];
  }

  lemma {:induction false} AfterBoth(env: Env, v: Details, d: Duo, es: seq<Event>, d': Duo, fs: seq<Event>)
    requires After(env, v, d, es) == Next(d')
    ensures After(env, v, d, es + fs) == After(env, v, d', fs)
    decreases |es|
  {
    hide Step;
    if es == [] {
      assert es + fs == fs;
    } else {
      AfterBoth(env, v, Step(env, v, d, es[0]).d, es[1..], d', fs);
      assert (es + fs)[1..] == es[1..] + fs;
    }
  }

  /** The map server accepts the challenge and its answer arrives. */
  const READ := PeerReads(true, true, true)

  predicate IsSent(q: Ask) {
    q.send.Sent?
  }

  /** The map server has been sent an offer that it has not read, and the login server stands by it. */
  ghost predicate IsOffered(d: Duo) {
    && d.peer.phase.AwaitList? && d.side.AsConnection? && d.side.c.state.MapWaitAck? && !d.k.error
    && d.peer.seen < |d.k.outbox|
  }

  /**
   * An offered map server that reads the offer, whose acknowledgement arrives and whose socket does not fail, is
   * registered by the login server's next visit, and both ends agree.
   */
  lemma OfferedIsRegistered(env: Env, v: Details, d: Duo, goodKey: bool, sameVersion: bool, q: Ask)
    requires InStep(env, v, d) && IsOffered(d)
    ensures var r := After(env, v, d, [PeerReads(goodKey, sameVersion, true), ServerVisit(q)]);
            && r.Next? && r.d.side.AsServer? && Agreement(v, r.d.peer, r.d.side.m)
            && r.d.side.m.maps == d.side.c.maps.value
  {
    hide IsAnswer, Dispatch, WithoutIds;
    var read := PeerReads(goodKey, sameVersion, true);
    assert [] + [MapAck] == [MapAck];
    var d1 := PeerRead(v, d, read);
    AckVisit(env, d1.side.c, d1.k, q);
    PeerKeeps(env, v, d, read);
    VisitKeeps(env, v, d1, q);
    var d2 := ServerStep(env, d1, q).d;
    hide InStep, PeerRead, Agreement;
    AfterTwo(env, v, d, read, d1, ServerVisit(q), d2);
    InStepAgrees(env, v, d2);
  }

  // --- The whole handshake ---

  lemma ConnectedInStep(env: Env, v: Details, id: SockId)
    ensures InStep(env, v, Connected(id))
  {
  }

  /** Challenge and request. */
  lemma Introduced(env: Env, v: Details, id: SockId, q: Ask) returns (d: Duo)
    requires IsSent(q)
    ensures After(env, v, Connected(id), [ServerVisit(q), READ]) == Next(d) && InStep(env, v, d) && !d.k.error
    ensures d.peer.phase.AwaitResponse? && d.side.AsConnection? && d.side.c.state.ChallengeSent?
    ensures d.k.inbox == [RegistrationRequest(v.name, v.host, v.port)] && d.k.outbox == [Challenge]
  {
    var d0 := Connected(id);
    ConnectedInStep(env, v, id);
    assert [] + [Challenge] == [Challenge];
    assert forall m: Inbound :: [] + [m] == [m];
    var d1 := d0.(side := AsConnection(d0.side.c.(state := ChallengeSent)), k := NEW_SOCK.(outbox := [Challenge]));
    assert Step(env, v, d0, ServerVisit(q)) == Next(d1);
    d := PeerRead(v, d1, READ);
    VisitKeeps(env, v, d0, q);
    PeerKeeps(env, v, d1, READ);
    hide InStep, PeerRead, ServerStep;
    AfterTwo(env, v, d0, ServerVisit(q), d1, READ, d);
  }

  /** Response and list of maps. */
  lemma ListSent(env: Env, v: Details, d: Duo, q: Ask) returns (d2: Duo)
    requires IsSent(q) && InStep(env, v, d) && !d.k.error && d.peer.phase.AwaitResponse?
    requires d.side.AsConnection? && d.side.c.state.ChallengeSent?
    requires d.k.inbox == [RegistrationRequest(v.name, v.host, v.port)] && d.k.outbox == [Challenge]
    ensures After(env, v, d, [ServerVisit(q), READ]) == Next(d2) && InStep(env, v, d2) && !d2.k.error
    ensures d2.peer.phase.AwaitList? && d2.side.AsConnection? && d2.side.c.state.MapList?
    ensures d2.k.inbox == [AdvertiseMaps(WithoutIds(v.maps))] && d2.k.outbox == HELLO
  {
    hide LoginAttempt, Offer, WithoutIds;
    assert [Challenge] + [RegistrationResponse] == HELLO;
    assert forall m: Inbound :: [] + [m] == [m];
    var d1 := ServerStep(env, d, q).d;
    d2 := PeerRead(v, d1, READ);
    VisitKeeps(env, v, d, q);
    PeerKeeps(env, v, d1, READ);
    hide InStep, PeerRead, ServerStep;
    AfterTwo(env, v, d, ServerVisit(q), d1, READ, d2);
  }

  /** The login server's answer to the list: the offer if anything on it is needed. */
  lemma OfferAnswered(env: Env, v: Details, d: Duo, q: Ask) returns (d1: Duo)
    requires IsSent(q) && InStep(env, v, d) && !d.k.error && d.peer.phase.AwaitList?
    requires d.side.AsConnection? && d.side.c.state.MapList?
    requires d.k.inbox == [AdvertiseMaps(WithoutIds(v.maps))] && d.k.outbox == HELLO
    ensures Step(env, v, d, ServerVisit(q)) == Next(d1) && InStep(env, v, d1) && d1.peer == d.peer
    ensures if exists l :: l in v.maps && Needed(l, env.allMaps, q.served) then IsOffered(d1)
            else d1.side.AsConnection? && d1.side.c.state.Done? && d1.k.outbox == HELLO + [NotNeeded]
  {
    VisitKeeps(env, v, d, q);
    hide LoginAttempt, Offer, WithoutIds, Needed, Wanted;
    OfferIgnoresIds(v.maps, env.allMaps, q.served);
    OfferEmpty(v.maps, env.allMaps, q.served);
    forall l
      ensures Wanted(l, env.allMaps, q.served) <==> Needed(l, env.allMaps, q.served)
    {
      WantedIff(l, env.allMaps, q.served);
    }
    d1 := ServerStep(env, d, q).d;
  }

  lemma TurnedAway(env: Env, v: Details, d: Duo)
    requires InStep(env, v, d) && d.peer.phase.AwaitList? && d.side.AsConnection? && d.side.c.state.Done?
    requires d.k.outbox == HELLO + [NotNeeded]
    ensures d.peer.seen < |d.k.outbox|
    ensures Step(env, v, d, READ) == Next(Return(d, false))
  {
  }

  function Return(d: Duo, ok: bool): Duo {
    d.(peer := d.peer.(phase := Returned(ok), seen := d.peer.seen + 1))
  }

  /** The list of maps has been sent. */
  lemma FirstHalf(env: Env, v: Details, id: SockId, q1: Ask, q2: Ask) returns (d: Duo)
    requires IsSent(q1) && IsSent(q2)
    ensures After(env, v, Connected(id), [ServerVisit(q1), READ, ServerVisit(q2), READ]) == Next(d)
    ensures InStep(env, v, d) && !d.k.error && d.peer.phase.AwaitList? && d.side.AsConnection? && d.side.c.state.MapList?
    ensures d.k.inbox == [AdvertiseMaps(WithoutIds(v.maps))] && d.k.outbox == HELLO
  {
    var d2 := Introduced(env, v, id, q1);
    d := ListSent(env, v, d2, q2);
    hide After, InStep, WithoutIds;
    AfterBoth(env, v, Connected(id), [ServerVisit(q1), READ], d2, [ServerVisit(q2), READ]);
    assert [ServerVisit(q1), READ] + [ServerVisit(q2), READ] == [ServerVisit(q1), READ, ServerVisit(q2), READ];
  }

  lemma OfferedHalf(env: Env, v: Details, d: Duo, q3: Ask, q4: Ask)
    requires IsSent(q3) && InStep(env, v, d) && !d.k.error && d.peer.phase.AwaitList?
    requires d.side.AsConnection? && d.side.c.state.MapList?
    requires d.k.inbox == [AdvertiseMaps(WithoutIds(v.maps))] && d.k.outbox == HELLO
    requires exists l :: l in v.maps && Needed(l, env.allMaps, q3.served)
    ensures var r := After(env, v, d, [ServerVisit(q3), READ, ServerVisit(q4)]);
            r.Next? && r.d.side.AsServer? && Agreement(v, r.d.peer, r.d.side.m)
  {
    var d1 := OfferAnswered(env, v, d, q3);
    hide After, InStep, Step, Agreement, Needed, WithoutIds;
    OfferedIsRegistered(env, v, d1, true, true, q4);
    AfterOne(env, v, d, ServerVisit(q3), d1, [READ, ServerVisit(q4)]);
    assert [ServerVisit(q3)] + [READ, ServerVisit(q4)] == [ServerVisit(q3), READ, ServerVisit(q4)];
  }

  lemma RefusedHalf(env: Env, v: Details, d: Duo, q3: Ask)
    requires IsSent(q3) && InStep(env, v, d) && !d.k.error && d.peer.phase.AwaitList?
    requires d.side.AsConnection? && d.side.c.state.MapList?
    requires d.k.inbox == [AdvertiseMaps(WithoutIds(v.maps))] && d.k.outbox == HELLO
    requires forall l :: l in v.maps ==> !Needed(l, env.allMaps, q3.served)
    ensures var r := After(env, v, d, [ServerVisit(q3), READ]);
            r.Next? && r.d.side.AsConnection? && r.d.side.c.state.Done? && r.d.peer.phase == Returned(false)
  {
    var d1 := OfferAnswered(env, v, d, q3);
    hide After, Step, Needed, WithoutIds;
    TurnedAway(env, v, d1);
    AfterTwo(env, v, d, ServerVisit(q3), d1, READ, Return(d1, false));
  }

  /**
   * The handshake of an honest map server, every send delivered and each end taking its turn: it is registered,
   * under its own details, exactly when some map it brings is in the catalogue with its hash and served by
   * nobody; otherwise it is turned away and returns failure.
   */
  lemma HandshakeRegistersIff(env: Env, v: Details, id: SockId, q1: Ask, q2: Ask, q3: Ask, q4: Ask)
    requires IsSent(q1) && IsSent(q2) && IsSent(q3)
    ensures var start := [ServerVisit(q1), READ, ServerVisit(q2), READ];
            if exists l :: l in v.maps && Needed(l, env.allMaps, q3.served) then
              var r := After(env, v, Connected(id), start + [ServerVisit(q3), READ, ServerVisit(q4)]);
              r.Next? && r.d.side.AsServer? && Agreement(v, r.d.peer, r.d.side.m)
            else
              var r := After(env, v, Connected(id), start + [ServerVisit(q3), READ]);
              r.Next? && r.d.side.AsConnection? && r.d.side.c.state.Done? && r.d.peer.phase == Returned(false)
  {
    var start := [ServerVisit(q1), READ, ServerVisit(q2), READ];
    var d := FirstHalf(env, v, id, q1, q2);
    hide After, InStep, Agreement, Needed, WithoutIds;
    if exists l :: l in v.maps && Needed(l, env.allMaps, q3.served) {
      OfferedHalf(env, v, d, q3, q4);
      AfterBoth(env, v, Connected(id), start, d, [ServerVisit(q3), READ, ServerVisit(q4)]);
    } else {
      RefusedHalf(env, v, d, q3);
      AfterBoth(env, v, Connected(id), start, d, [ServerVisit(q3), READ]);
    }
  }
}
