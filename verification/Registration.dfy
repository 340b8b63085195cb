/** A map server and the login server, joined by one socket: the registration handshake. */
module Registration {
  import opened Prelude
  import opened Domain
  import opened Handlers

  /** Where `registerWithMasterServer` is: each of its waits, then its return value. */
  datatype Phase = AwaitChallenge | AwaitResponse | AwaitList | Returned(ok: bool)

  /** What the map server brings: its details, and the maps it parsed. */
  datatype Details = Details(name: string, host: string, port: nat, maps: seq<Location>)

  /** `decoded` is the list of required maps as the map server read it; `seen` counts the messages it read. */
  datatype Peer = Peer(phase: Phase, decoded: Option<seq<Location>>, seen: nat)

  /** Who holds the login server's end of the socket. */
  datatype Side = AsConnection(c: Connection) | AsServer(m: MapServer)

  /** `said` is the history of what the map server put on the socket. */
  datatype Duo = Duo(peer: Peer, side: Side, k: Sock, said: seq<Inbound>)

  /** `sent` tells whether the map server's own send arrived: it never looks at the result. */
  datatype Event =
    | ServerVisit(q: Ask)
    | SocketFails
    | PeerReads(goodKey: bool, sameVersion: bool, sent: bool)
    | PeerGivesUp
    | PeerHangsUp

  datatype Result = Off | Next(d: Duo)

  const WAITING := Peer(AwaitChallenge, None, 0)

  function Connected(id: SockId): Duo {
    Duo(WAITING, AsConnection(NewConnection(id)), NEW_SOCK, [])
  }

  /** A visit by the login server: any fate of its send, any rows, any names served at that moment. */
  function ServerStep(env: Env, d: Duo, q: Ask): Result {
    if d.side.AsServer? then Off
    else if !d.side.c.state.Done? && d.k.error then Next(d.(side := AsConnection(d.side.c.(state := Done))))
    else
      var f := Dispatch(env, d.side.c, d.k, q);
      if f.next.Stay? then Next(d.(side := AsConnection(f.conn), k := f.sock))
      else if f.next.Enrol? && Enrollable(f.conn) then
        Next(d.(side := AsServer(Record(f.conn)), k := f.sock))
      else Off
  }

  function Say(k: Sock, m: Inbound, sent: bool): Sock {
    if sent then k.(inbox := k.inbox + [m]) else k
  }

  /** A location as the list packet carries it: without its database id. */
  function WithoutId(l: Location): Location {
    l.(id := 0)
  }

  function WithoutIds(s: seq<Location>): (r: seq<Location>)
    ensures |r| == |s| && forall i :: 0 <= i < |s| ==> r[i] == s[i].(id := 0)
  {
    seq(|s|, (i: int) requires 0 <= i < |s| => WithoutId(s[i]))
  }

  /** The map server after a message, and what it puts on the socket. */
  datatype Reaction = Reaction(peer: Peer, said: Option<Inbound>)

  /** What the map server makes of the next message, in the wait it is in. */
  function React(v: Details, p: Peer, m: Outbound, goodKey: bool, sameVersion: bool): Reaction {
    var next := p.(seen := p.seen + 1);
    match p.phase
    case AwaitChallenge =>
      if !m.Challenge? || !goodKey then Reaction(next.(phase := Returned(false)), None)
      else if !sameVersion then Reaction(next.(phase := Returned(false)), Some(VersionMismatch))
      else Reaction(next.(phase := AwaitResponse), Some(RegistrationRequest(v.name, v.host, v.port)))
    case AwaitResponse =>
      if !m.RegistrationResponse? then Reaction(next.(phase := Returned(false)), None)
      else Reaction(next.(phase := AwaitList), Some(AdvertiseMaps(WithoutIds(v.maps))))
    case AwaitList =>
      if !m.RequiredMaps? then Reaction(next.(phase := Returned(false)), None)
      else Reaction(next.(phase := Returned(true), decoded := Some(WithoutIds(m.maps))), Some(MapAck))
    case Returned(_) => Reaction(p, None)
  }

  function SaidIn(r: Reaction): seq<Inbound> {
    if r.said.Some? then [r.said.value] else []
  }

  function PeerRead(v: Details, d: Duo, e: Event): Duo
    requires e.PeerReads? && d.peer.seen < |d.k.outbox|
  {
    var r := React(v, d.peer, d.k.outbox[d.peer.seen], e.goodKey, e.sameVersion);
    d.(peer := r.peer, k := if r.said.Some? then Say(d.k, r.said.value, e.sent) else d.k, said := d.said + SaidIn(r))
  }

  function GiveUp(p: Peer): Peer {
    p.(phase := Returned(false))
  }

  /**
   * One step of either end. The map server may time out at any wait; once it has returned it may close the
   * socket, which the login server sees as activity without bytes, any number of times.
   */
  function Step(env: Env, v: Details, d: Duo, e: Event): Result {
    match e
    case ServerVisit(q) => ServerStep(env, d, q)
    case SocketFails => Next(d.(k := d.k.(error := true)))
    case PeerReads(_, _, _) =>
      if d.peer.seen < |d.k.outbox| && !d.peer.phase.Returned? then Next(PeerRead(v, d, e)) else Off
    case PeerGivesUp => if d.peer.phase.Returned? then Off else Next(d.(peer := GiveUp(d.peer)))
    case PeerHangsUp => if d.peer.phase.Returned? then Next(d.(k := Say(d.k, Empty, true))) else Off
  }

  ghost predicate IsRun(env: Env, v: Details, t: seq<Duo>, es: seq<Event>, id: SockId) {
    && |t| == |es| + 1 && t[0] == Connected(id)
    && forall k :: 0 <= k < |es| ==> Step(env, v, t[k], es[k]) == Next(t[k + 1])
  }

  // --- The joint invariant ---

  const HELLO := [Challenge, RegistrationResponse]

  /** The connection holds what the map server announced. */
  predicate Announced(v: Details, c: Connection) {
    c.name == Some(v.name) && c.address == Some(v.host) && c.port == Some(v.port)
  }

  /** A list that the login server offers in answer to `advertised`, for some names served at that moment. */
  ghost predicate IsAnswer(env: Env, offer: seq<Location>, advertised: seq<Location>) {
    offer != [] && exists served: set<string> :: offer == Offer(advertised, env.allMaps, served)
  }

  ghost predicate ChallengeOk(d: Duo, c: Connection) {
    && d.peer.seen == 0 && d.k.inbox == []
    && ((d.k.outbox == [] && (c.state.Fresh? || c.state.ChallengeSent? || c.state.Done?))
        || (d.k.outbox == [Challenge] && (c.state.ChallengeSent? || c.state.Done?)))
  }

  ghost predicate ResponseOk(v: Details, d: Duo, c: Connection) {
    && d.peer.seen == 1
    && ((d.k.outbox == [Challenge]
         && (c.state.Done? || (c.state.ChallengeSent?
                               && (d.k.inbox == [] || d.k.inbox == [RegistrationRequest(v.name, v.host, v.port)]))))
        || (d.k.outbox == HELLO && (c.state.Done? || (c.state.MapList? && Announced(v, c) && d.k.inbox == []))))
  }

  ghost predicate ListOk(env: Env, v: Details, d: Duo, c: Connection) {
    && d.peer.seen == 2
    && (|| (d.k.outbox == HELLO && c.state.Done?)
        || (d.k.outbox == HELLO && c.state.MapList? && Announced(v, c)
            && (d.k.inbox == [] || d.k.inbox == [AdvertiseMaps(WithoutIds(v.maps))]))
        || (d.k.outbox == HELLO + [NotNeeded] && c.state.Done?)
        || (d.k.outbox == HELLO && HoldsOffer(env, v, c) && d.k.inbox == [])
        || OfferMade(env, v, d, c))
  }

  ghost predicate HoldsOffer(env: Env, v: Details, c: Connection) {
    c.state.MapWaitAck? && Announced(v, c) && c.maps.Some? && IsAnswer(env, c.maps.value, v.maps)
  }

  /** The offer was delivered, and the connection still stands by it or has been closed. */
  ghost predicate OfferMade(env: Env, v: Details, d: Duo, c: Connection) {
    && |d.k.outbox| == 3 && d.k.outbox[..2] == HELLO && d.k.outbox[2].RequiredMaps?
    && IsAnswer(env, d.k.outbox[2].maps, v.maps)
    && (c.state.Done? || (HoldsOffer(env, v, c) && c.maps.value == d.k.outbox[2].maps))
    && (d.peer.phase.AwaitList? && !c.state.Done? ==> d.k.inbox == [])
  }

  /** Both ends agree on the details and the list. */
  ghost predicate Registered(env: Env, v: Details, d: Duo) {
    && d.side.AsServer?
    && d.side.m.friendlyName == v.name && d.side.m.host == v.host && d.side.m.port == v.port
    && IsAnswer(env, d.side.m.maps, v.maps)
    && d.k.outbox == HELLO + [RequiredMaps(d.side.m.maps)]
  }

  ghost predicate AgreedOk(env: Env, v: Details, d: Duo) {
    && (if d.side.AsConnection? then OfferMade(env, v, d, d.side.c) else Registered(env, v, d))
    && d.k.outbox[2].RequiredMaps? && d.peer.decoded == Some(WithoutIds(d.k.outbox[2].maps))
  }

  /** A peer that gave up acknowledges nothing: whatever it sent before is read in an earlier state. */
  ghost predicate SilentOk(d: Duo, c: Connection) {
    c.state.Done? ||
    (&& (forall i :: 1 <= i < |d.k.inbox| ==> d.k.inbox[i].Empty?)
     && !c.state.LoginFailed?
     && (d.k.inbox != [] ==>
           || d.k.inbox[0].Empty?
           || (c.state.ChallengeSent? && (d.k.inbox[0].RegistrationRequest? || d.k.inbox[0].VersionMismatch?))
           || (c.state.MapList? && d.k.inbox[0].AdvertiseMaps?))
     && (c.state.MapList? || c.state.MapWaitAck? ==> c.name.Some? && c.address.Some? && c.port.Some?)
     && (c.state.MapWaitAck? ==> c.maps.Some?))
  }

  ghost predicate InStep(env: Env, v: Details, d: Duo) {
    && (d.side.AsConnection? ==> d.side.c.socket.Some? && d.side.c.attempts == 0)
    && (d.peer.phase == Returned(true) || d.side.AsConnection?)
    && match d.peer.phase
       case AwaitChallenge => ChallengeOk(d, d.side.c)
       case AwaitResponse => ResponseOk(v, d, d.side.c)
       case AwaitList => ListOk(env, v, d, d.side.c)
       case Returned(ok) => if ok then AgreedOk(env, v, d) else SilentOk(d, d.side.c)
  }

  // --- Server visits ---

  lemma {:induction false} OfferIgnoresIds(s: seq<Location>, allMaps: seq<Location>, served: set<string>)
    ensures Offer(WithoutIds(s), allMaps, served) == Offer(s, allMaps, served)
  {
    hide FirstNamed;
    if s == [] {
      assert WithoutIds(s) == [];
    } else {
      var n := |s| - 1;
      OfferIgnoresIds(s[..n], allMaps, served);
      assert WithoutIds(s)[..n] == WithoutIds(s[..n]);
    }
  }

  lemma QuietVisit(env: Env, c: Connection, k: Sock, q: Ask)
    requires c.state.Done? || (!c.state.Fresh? && k.inbox == [])
    ensures Dispatch(env, c, k, q) == Effect(c, k, Stay)
  {
    hide OnChallengeSent, OnLoginFailed, OnMapList;
  }

  lemma EmptyVisit(env: Env, c: Connection, k: Sock, q: Ask)
    requires c.state.ChallengeSent? || c.state.MapList? || c.state.MapWaitAck?
    requires c.state.MapWaitAck? ==> c.name.Some? && c.address.Some? && c.port.Some? && c.maps.Some?
    requires k.inbox != [] && (k.inbox[0].Empty? || (c.state.ChallengeSent? && k.inbox[0].VersionMismatch?))
    ensures var f := Dispatch(env, c, k, q);
            f.next.Stay? && f.conn == c.(state := Done) && f.sock.inbox == k.inbox[1..] && f.sock.outbox == k.outbox
  {
    hide LoginAttempt, Offer;
  }

  lemma FreshVisit(env: Env, c: Connection, k: Sock, q: Ask)
    requires c.state.Fresh?
    ensures var f := Dispatch(env, c, k, q);
            && f.next.Stay? && f.sock.inbox == k.inbox
            && (f.conn == c.(state := ChallengeSent) || f.conn == c.(state := Done))
            && (f.sock.outbox == k.outbox || f.sock.outbox == k.outbox + [Challenge])
  {
    hide OnChallengeSent, OnLoginFailed, OnMapList;
  }

  lemma RequestVisit(env: Env, c: Connection, k: Sock, q: Ask)
    requires c.state.ChallengeSent? && c.attempts == 0 && k.inbox != [] && k.inbox[0].RegistrationRequest?
    ensures var f, m := Dispatch(env, c, k, q), k.inbox[0];
            && f.next.Stay? && f.sock.inbox == k.inbox[1..] && f.conn.socket == c.socket && f.conn.attempts == 0
            && (if f.conn.state.MapList? then
                  && f.sock.outbox == k.outbox + [RegistrationResponse]
                  && f.conn.name == Some(m.name) && f.conn.address == Some(m.address) && f.conn.port == Some(m.port)
                else (f.conn.state.ChallengeSent? || f.conn.state.Done?) && f.sock.outbox == k.outbox)
  {
    hide LoginAttempt, OnMapList;
  }

  lemma ListVisit(env: Env, v: Details, c: Connection, k: Sock, q: Ask)
    requires c.state.MapList? && k.inbox != [] && k.inbox[0] == AdvertiseMaps(WithoutIds(v.maps))
    ensures var f := Dispatch(env, c, k, q);
            && f.next.Stay? && f.sock.inbox == k.inbox[1..]
            && (|| (f.conn == c.(state := Done) && (f.sock.outbox == k.outbox || f.sock.outbox == k.outbox + [NotNeeded]))
                || (exists o :: f.conn == c.(state := MapWaitAck, maps := Some(o)) && IsAnswer(env, o, v.maps)
                      && (f.sock.outbox == k.outbox || f.sock.outbox == k.outbox + [RequiredMaps(o)])))
  {
    hide Offer, OnChallengeSent, OnLoginFailed;
    OfferIgnoresIds(v.maps, env.allMaps, q.served);
    var o := Offer(v.maps, env.allMaps, q.served);
    assert o != [] ==> IsAnswer(env, o, v.maps);
  }

  lemma AnyListVisit(env: Env, c: Connection, k: Sock, q: Ask)
    requires c.state.MapList? && k.inbox != []
    ensures var f := Dispatch(env, c, k, q);
            && f.next.Stay? && f.sock.inbox == k.inbox[1..]
            && (f.conn == c.(state := Done) || (f.conn.maps.Some? && f.conn == c.(state := MapWaitAck, maps := f.conn.maps)))
  {
    hide Offer, OnChallengeSent, OnLoginFailed;
  }

  lemma AckVisit(env: Env, c: Connection, k: Sock, q: Ask)
    requires c.state.MapWaitAck? && c.name.Some? && c.address.Some? && c.port.Some? && c.maps.Some?
    requires k.inbox != [] && !k.inbox[0].Empty?
    ensures var f := Dispatch(env, c, k, q);
            f.next.Enrol? && f.conn == c && f.sock.outbox == k.outbox && f.sock.inbox == k.inbox[1..]
  {
    hide OnChallengeSent, OnLoginFailed, OnMapList;
  }

  lemma ChallengeVisit(env: Env, v: Details, d: Duo, q: Ask)
    requires d.peer.phase.AwaitChallenge? && InStep(env, v, d) && !d.k.error
    ensures ServerStep(env, d, q).Next? && InStep(env, v, ServerStep(env, d, q).d)
  {
    hide Dispatch;
    if d.side.c.state.Fresh? {
      FreshVisit(env, d.side.c, d.k, q);
    } else {
      QuietVisit(env, d.side.c, d.k, q);
    }
  }

  lemma ResponseVisit(env: Env, v: Details, d: Duo, q: Ask)
    requires d.peer.phase.AwaitResponse? && InStep(env, v, d) && !d.k.error
    ensures ServerStep(env, d, q).Next? && InStep(env, v, ServerStep(env, d, q).d)
  {
    hide Dispatch;
    if d.side.c.state.ChallengeSent? && d.k.inbox != [] {
      RequestVisit(env, d.side.c, d.k, q);
    } else {
      QuietVisit(env, d.side.c, d.k, q);
    }
  }

  lemma OfferVisit(env: Env, v: Details, d: Duo, q: Ask)
    requires d.peer.phase.AwaitList? && InStep(env, v, d) && !d.k.error
    ensures ServerStep(env, d, q).Next? && InStep(env, v, ServerStep(env, d, q).d)
  {
    hide Dispatch, IsAnswer;
    if d.side.c.state.MapList? && d.k.inbox != [] {
      ListVisit(env, v, d.side.c, d.k, q);
    } else {
      QuietVisit(env, d.side.c, d.k, q);
    }
  }

  lemma AgreedVisit(env: Env, v: Details, d: Duo, q: Ask)
    requires d.peer.phase == Returned(true) && d.side.AsConnection? && InStep(env, v, d) && !d.k.error
    ensures ServerStep(env, d, q).Next? && InStep(env, v, ServerStep(env, d, q).d)
  {
    hide Dispatch, IsAnswer;
    if d.side.c.state.Done? || d.k.inbox == [] {
      QuietVisit(env, d.side.c, d.k, q);
    } else if d.k.inbox[0].Empty? {
      EmptyVisit(env, d.side.c, d.k, q);
    } else {
      AckVisit(env, d.side.c, d.k, q);
      assert d.k.outbox == d.k.outbox[..2] + [d.k.outbox[2]];
    }
  }

  lemma SilentVisit(env: Env, v: Details, d: Duo, q: Ask)
    requires d.peer.phase == Returned(false) && InStep(env, v, d) && !d.k.error
    ensures ServerStep(env, d, q).Next? && InStep(env, v, ServerStep(env, d, q).d)
  {
    hide Dispatch;
    if d.side.c.state.Fresh? {
      FreshVisit(env, d.side.c, d.k, q);
    } else if d.side.c.state.Done? || d.k.inbox == [] {
      QuietVisit(env, d.side.c, d.k, q);
    } else if d.k.inbox[0].Empty? || d.k.inbox[0].VersionMismatch? {
      EmptyVisit(env, d.side.c, d.k, q);
    } else if d.side.c.state.MapList? {
      AnyListVisit(env, d.side.c, d.k, q);
    } else {
      RequestVisit(env, d.side.c, d.k, q);
    }
  }

  /** The login server can always take its turn (no REQUIRE fails), and its turn keeps the invariant. */
  lemma VisitKeeps(env: Env, v: Details, d: Duo, q: Ask)
    requires InStep(env, v, d) && d.side.AsConnection?
    ensures ServerStep(env, d, q).Next? && InStep(env, v, ServerStep(env, d, q).d)
  {
    hide Dispatch, IsAnswer;
    if d.side.c.state.Done? {
      QuietVisit(env, d.side.c, d.k, q);
    } else if !d.k.error {
      hide ServerStep, InStep;
      match d.peer.phase
      case AwaitChallenge => ChallengeVisit(env, v, d, q);
      case AwaitResponse => ResponseVisit(env, v, d, q);
      case AwaitList => OfferVisit(env, v, d, q);
      case Returned(ok) =>
        if ok {
          AgreedVisit(env, v, d, q);
        } else {
          SilentVisit(env, v, d, q);
        }
    }
  }

  // --- Steps of the map server ---

  lemma ReadKeeps(env: Env, v: Details, d: Duo, e: Event)
    requires e.PeerReads? && InStep(env, v, d) && !d.peer.phase.Returned? && d.peer.seen < |d.k.outbox|
    ensures InStep(env, v, PeerRead(v, d, e))
  {
    hide IsAnswer, WithoutIds;
    assert forall m: Inbound :: [] + [m] == [m];
    match d.peer.phase
    case AwaitChallenge => assert ChallengeOk(d, d.side.c);
    case AwaitResponse => assert ResponseOk(v, d, d.side.c);
    case AwaitList => assert ListOk(env, v, d, d.side.c);
  }

  lemma PeerKeeps(env: Env, v: Details, d: Duo, e: Event)
    requires !e.ServerVisit? && InStep(env, v, d) && Step(env, v, d, e).Next?
    ensures InStep(env, v, Step(env, v, d, e).d)
  {
    hide IsAnswer, WithoutIds, PeerRead;
    match e
    case PeerReads(_, _, _) => ReadKeeps(env, v, d, e);
    case PeerGivesUp =>
      match d.peer.phase {
        case AwaitChallenge => assert ChallengeOk(d, d.side.c);
        case AwaitResponse => assert ResponseOk(v, d, d.side.c);
        case AwaitList => assert ListOk(env, v, d, d.side.c);
      }
    case PeerHangsUp =>
    case SocketFails =>
  }

  lemma {:induction false} RunOk(env: Env, v: Details, t: seq<Duo>, es: seq<Event>, id: SockId, k: nat)
    requires IsRun(env, v, t, es, id) && k < |t|
    ensures InStep(env, v, t[k])
  {
    if k > 0 {
      hide Step, InStep;
      RunOk(env, v, t, es, id, k - 1);
      assert Step(env, v, t[k - 1], es[k - 1]) == Next(t[k]);
      StepKeeps(env, v, t[k - 1], es[k - 1]);
    }
  }

  lemma StepKeeps(env: Env, v: Details, d: Duo, e: Event)
    requires InStep(env, v, d) && Step(env, v, d, e).Next?
    ensures InStep(env, v, Step(env, v, d, e).d)
  {
    hide ServerStep, InStep;
    if e.ServerVisit? {
      TakesTurn(env, d, e.q);
      VisitKeeps(env, v, d, e.q);
    } else {
      PeerKeeps(env, v, d, e);
    }
  }

  lemma TakesTurn(env: Env, d: Duo, q: Ask)
    requires ServerStep(env, d, q).Next?
    ensures d.side.AsConnection?
  {
  }

  // --- What the handshake guarantees ---

  /** `at` places each entry of `some` in `all`, in increasing order, with the same name and hash. */
  ghost predicate Embeds(some: seq<Location>, all: seq<Location>, at: seq<nat>) {
    && |at| == |some|
    && (forall k :: 0 <= k < |at| ==> at[k] < |all| && Key(some[k]) == Key(all[at[k]]))
    && (forall k, l :: 0 <= k < l < |at| ==> at[k] < at[l])
  }

  lemma AnswerEmbeds(env: Env, offer: seq<Location>, advertised: seq<Location>)
    requires IsAnswer(env, offer, advertised)
    ensures exists at :: Embeds(offer, advertised, at)
  {
    hide Offer;
    var served: set<string> :| offer == Offer(advertised, env.allMaps, served);
    var p := (l: Location) => Wanted(l, env.allMaps, served);
    OfferIsFilter(advertised, env.allMaps, served);
    FilterIsStable(p, advertised);
    var kept, at := Filter(p, advertised), Kept(p, advertised);
    assert Keys(offer) == Keys(kept);
    forall k | 0 <= k < |at|
      ensures Key(offer[k]) == Key(advertised[at[k]])
    {
      assert Keys(offer)[k] == Keys(kept)[k];
    }
    assert |offer| == |Keys(offer)| == |kept|;
    assert Embeds(offer, advertised, at);
  }

  /** What both ends agree on once the login server has registered the map server. */
  ghost predicate Agreement(v: Details, p: Peer, m: MapServer) {
    && p.phase == Returned(true) && p.decoded == Some(WithoutIds(m.maps))
    && m.friendlyName == v.name && m.host == v.host && m.port == v.port
    && m.maps != [] && (exists at :: Embeds(m.maps, v.maps, at))
  }

  lemma InStepAgrees(env: Env, v: Details, d: Duo)
    requires InStep(env, v, d) && d.side.AsServer?
    ensures Agreement(v, d.peer, d.side.m)
  {
    hide Embeds;
    AnswerEmbeds(env, d.side.m.maps, v.maps);
  }

  /**
   * When the login server has registered a map server, that map server returned success; the stored record
   * holds its details, and a non-empty list that is, up to database ids, the list it decoded, and a sub-list of
   * what it advertised.
   */
  lemma RegistrationAgrees(env: Env, v: Details, t: seq<Duo>, es: seq<Event>, id: SockId, k: nat)
    requires IsRun(env, v, t, es, id) && k < |t| && t[k].side.AsServer?
    ensures Agreement(v, t[k].peer, t[k].side.m)
  {
    hide IsRun, InStep, Agreement;
    RunOk(env, v, t, es, id, k);
    InStepAgrees(env, v, t[k]);
  }

  /**
   * A map server that returned success was answered by a challenge, a response and a list of maps, never by
   * NOT_NEEDED; the login server has registered that list, still holds it, or has closed the connection.
   */
  lemma SuccessWasOffered(env: Env, v: Details, t: seq<Duo>, es: seq<Event>, id: SockId, k: nat)
    requires IsRun(env, v, t, es, id) && k < |t| && t[k].peer.phase == Returned(true)
    ensures NotNeeded !in t[k].k.outbox
    ensures exists o :: t[k].k.outbox == HELLO + [RequiredMaps(o)] && t[k].peer.decoded == Some(WithoutIds(o))
              && (if t[k].side.AsServer? then t[k].side.m.maps == o
                  else t[k].side.c.state.Done? || t[k].side.c.maps == Some(o))
  {
    hide IsRun, IsAnswer, WithoutIds;
    RunOk(env, v, t, es, id, k);
    var outbox := t[k].k.outbox;
    assert outbox == outbox[..2] + [outbox[2]];
  }

  /** A map server that returned failure is never registered, whatever happens later. */
  lemma FailureStaysOut(env: Env, v: Details, t: seq<Duo>, es: seq<Event>, id: SockId, j: nat, k: nat)
    requires IsRun(env, v, t, es, id) && j <= k < |t| && t[j].peer.phase == Returned(false)
    ensures t[k].side.AsConnection?
  {
    ReturnIsFinal(env, v, t, es, id, j, k);
    hide IsRun;
    RunOk(env, v, t, es, id, k);
  }

  /** Once the map server has returned, nothing about it changes. */
  lemma {:induction false} ReturnIsFinal(env: Env, v: Details, t: seq<Duo>, es: seq<Event>, id: SockId, j: nat, k: nat)
    requires IsRun(env, v, t, es, id) && j <= k < |t| && t[j].peer.phase.Returned?
    ensures t[k].peer == t[j].peer
  {
    hide Dispatch;
    if j < k {
      ReturnIsFinal(env, v, t, es, id, j, k - 1);
      assert Step(env, v, t[k - 1], es[k - 1]) == Next(t[k]);
    }
  }
}
