/**
 * The hazard of two pending offers of one map: with a catalogue of one map, two map servers both offered
 * it register, the second registration replaces the storage of `mapServers`, and a player's character
 * selection then reads through the dangling pointer.
 */
module SharedOffer {
  import opened Prelude
  import opened Domain
  import opened Handlers
  import opened LoginData
  import opened Threads
  import opened WholeLoops
  import opened Credentials
  import opened HexCodec

  const MAP_A := Location(7, "a", "a.tmx", "h", 1)

  /** The same map as a map server lists it: it knows no database id. */
  const THEIR_A := Location(0, "a", "a.tmx", "h", 1)

  const WORLD := Env((stored: Stored, encrypted: seq<byte>) => true, [MAP_A], map[7 := "a"], 0)

  const ROWS := Db([Player(5, "u", Stored("", ""), false)], [Character(9, 5, "c", 7)])

  /** Every send of this run succeeds; `addr` is where a new session object would go. */
  function Fates(addr: nat): Fate {
    Fate(Sent, ROWS, addr, 0)
  }

  ghost function Idle(d: Data): Sys {
    Sys(d, AIdle, IIdle, CIdle, None, None, None)
  }

  function Conn(id: SockId, state: ConnState): Connection {
    NewConnection(id).(state := state)
  }

  function Registrant(id: SockId, state: ConnState, maps: Option<seq<Location>>): Connection {
    Connection(Some(id), state, 0, Some("s"), Some(1), Some("host"), maps)
  }

  function Sock1(read: nat, out: seq<Outbound>, inbox: seq<Inbound>): Sock {
    Sock(inbox, out, false, true, read, 0)
  }

  /** Three sockets in the same state, all of them having been sent `out`. */
  ghost function Accepted(state: ConnState, out: seq<Outbound>): Data {
    Start(WORLD).(net := map[0 := Sock1(0, out, []), 1 := Sock1(0, out, []), 2 := Sock1(0, out, [])],
                  incoming := [Conn(0, state), Conn(1, state), Conn(2, state)])
  }

  const GREETED := [Challenge, RegistrationResponse]
  const OFFER := [Challenge, RegistrationResponse, RequiredMaps([MAP_A])]
  const WELCOME := [Challenge, AuthResponse(true, 3)]

  /** Both peers are map servers awaiting their turn to list maps; the third socket belongs to a player session. */
  ghost function WithSession(): Data {
    var peer := Sock1(1, GREETED, []);
    Accepted(Fresh, []).(
      net := map[0 := peer, 1 := peer, 2 := Sock1(1, WELCOME, [])],
      incoming := [Registrant(0, MapList, None), Registrant(1, MapList, None), Conn(2, Done).(socket := None)],
      sessions := [Some(Session(0, 0, 5, "u", 2, 0))], index := map["u" := 0], created := 1)
  }

  /** Both map servers hold an offer of the same map. */
  ghost function WithOffers(): Data {
    var peer := Sock1(2, OFFER, []);
    WithSession().(
      net := map[0 := peer, 1 := peer, 2 := Sock1(1, WELCOME, [SelectCharacter(9)])],
      incoming := [Registrant(0, MapWaitAck, Some([MAP_A])), Registrant(1, MapWaitAck, Some([MAP_A])), Conn(2, Done).(socket := None)],
      reported := map[0 := [THEIR_A], 1 := [THEIR_A]])
  }

  lemma AcceptOne(s: Sys, id: SockId)
    requires Reachable(WORLD, s) && s == Idle(s.d) && id !in s.d.net
    ensures Reachable(WORLD,
              Idle(s.d.(net := s.d.net[id := NEW_SOCK], incoming := s.d.incoming + [NewConnection(id)])))
  {
    hide Reachable, WORLD, Boot;
    var d := s.d.(net := s.d.net[id := NEW_SOCK]);
    Go(WORLD, s, AcceptSocket(id), s.(a := AWant(id), d := d));
    Go(WORLD, s.(a := AWant(id), d := d), AcceptorLock, s.(a := AHold(id), d := d, incomingLock := Some(Acceptor)));
    Go(WORLD, s.(a := AHold(id), d := d, incomingLock := Some(Acceptor)), AcceptorPush, Idle(Accept(d, id)));
  }

  lemma ThreeAccepted()
    ensures Reachable(WORLD, Idle(Accepted(Fresh, [])))
  {
    hide Reachable;
    Booted(WORLD);
    var d0 := Start(WORLD);
    AcceptOne(Idle(d0), 0);
    var d1 := d0.(net := d0.net[0 := NEW_SOCK], incoming := d0.incoming + [NewConnection(0)]);
    AcceptOne(Idle(d1), 1);
    var d2 := d1.(net := d1.net[1 := NEW_SOCK], incoming := d1.incoming + [NewConnection(1)]);
    AcceptOne(Idle(d2), 2);
    var d3 := d2.(net := d2.net[2 := NEW_SOCK], incoming := d2.incoming + [NewConnection(2)]);
    assert d3.net == Accepted(Fresh, []).net && d3.incoming == Accepted(Fresh, []).incoming;
  }

  /** A scan that has reached connection `i`, holding the incoming lock. */
  ghost function Scanning(d: Data, i: nat): Sys {
    Idle(d).(i := IScan(i), incomingLock := Some(Incoming))
  }

  /** One turn of a scan that needs no second lock. */
  lemma PlainTurn(d: Data, i: nat, addr: nat, d': Data)
    requires Reachable(WORLD, Scanning(d, i)) && i < |d.incoming| && FreshAddr(d, addr)
    requires Visit(WORLD, d, i, Fates(addr)) == Continue(d')
    ensures Reachable(WORLD, Scanning(d', i + 1))
  {
    hide Reachable, Visit, WORLD;
    Go(WORLD, Scanning(d, i), ScanOne(Fates(addr)), Scanning(d', i + 1));
  }

  lemma BeginScan(d: Data)
    requires Reachable(WORLD, Idle(d))
    ensures Reachable(WORLD, Scanning(d, 0))
  {
    hide Reachable, WORLD;
    Go(WORLD, Idle(d), ScanStart, Scanning(d, 0));
  }

  lemma EndScan(d: Data, i: nat)
    requires Reachable(WORLD, Scanning(d, i)) && i == |d.incoming|
    ensures Reachable(WORLD, Idle(d))
  {
    hide Reachable, WORLD;
    Go(WORLD, Scanning(d, i), ScanEnd(false), Idle(d));
  }

  lemma Message(d: Data, id: SockId, m: Inbound)
    requires Reachable(WORLD, Idle(d)) && id in d.net
    ensures Reachable(WORLD, Idle(d.(net := d.net[id := d.net[id].(inbox := d.net[id].inbox + [m])])))
  {
    hide Reachable, WORLD;
    Go(WORLD, Idle(d), Arrive(id, m), Idle(d.(net := d.net[id := d.net[id].(inbox := d.net[id].inbox + [m])])));
  }

  lemma AllChallenged()
    ensures Reachable(WORLD, Idle(Accepted(ChallengeSent, [Challenge])))
  {
    hide Reachable, WORLD;
    ThreeAccepted();
    var d0, k := Accepted(Fresh, []), Sock1(0, [Challenge], []);
    var d1 := d0.(net := d0.net[0 := k], incoming := d0.incoming[0 := Conn(0, ChallengeSent)]);
    var d2 := d1.(net := d1.net[1 := k], incoming := d1.incoming[1 := Conn(1, ChallengeSent)]);
    var d3 := d2.(net := d2.net[2 := k], incoming := d2.incoming[2 := Conn(2, ChallengeSent)]);
    BeginScan(d0);
    ChallengeTurn(d0, 0, d1);
    ChallengeTurn(d1, 1, d2);
    ChallengeTurn(d2, 2, d3);
    EndScan(d3, 3);
    var t := Accepted(ChallengeSent, [Challenge]);
    assert d3.incoming == t.incoming && d3.net == t.net;
  }

  lemma ChallengeTurn(d: Data, i: nat, d': Data)
    requires Reachable(WORLD, Scanning(d, i)) && i < |d.incoming| && d.sessions == []
    requires d.incoming[i] == Conn(i, Fresh) && i in d.net && d.net[i] == NEW_SOCK
    requires d' == d.(net := d.net[i := Sock1(0, [Challenge], [])], incoming := d.incoming[i := Conn(i, ChallengeSent)])
    ensures Reachable(WORLD, Scanning(d', i + 1))
  {
    hide Reachable, WORLD;
    assert [] + [Challenge] == [Challenge];
    PlainTurn(d, i, 0, d');
  }

  /** A turn in which map server `i` (at place `i`) is answered. */
  lemma PeerTurn(d: Data, i: nat, addr: nat, c: Connection, k: Sock, d': Data)
    requires Reachable(WORLD, Scanning(d, i)) && i < |d.incoming| && i in d.net && FreshAddr(d, addr)
    requires d.incoming[i].socket == Some(i) && !d.incoming[i].state.Done? && !d.net[i].error
    requires Dispatch(WORLD, d.incoming[i], d.net[i], Ask(Sent, ROWS, d.served.Keys)) == Effect(c, k, Stay)
    requires d' == d.(net := d.net[i := k], incoming := d.incoming[i := c],
                      reported := Reported(d, d.incoming[i], d.net[i], i))
    ensures Reachable(WORLD, Scanning(d', i + 1))
  {
    hide Reachable, WORLD, Dispatch, Reported, ROWS;
    PlainTurn(d, i, addr, d');
  }

  const REGISTER := RegistrationRequest("s", "host", 1)

  ghost function Registering(): Data {
    var peer := Sock1(0, [Challenge], [REGISTER]);
    Accepted(ChallengeSent, [Challenge]).(
      net := map[0 := peer, 1 := peer, 2 := Sock1(0, [Challenge], [Identity("u", [])])])
  }

  lemma RegistrationsSent()
    ensures Reachable(WORLD, Idle(Registering()))
  {
    hide Reachable, WORLD;
    AllChallenged();
    var d0 := Accepted(ChallengeSent, [Challenge]);
    Message(d0, 0, REGISTER);
    var d1 := d0.(net := d0.net[0 := d0.net[0].(inbox := d0.net[0].inbox + [REGISTER])]);
    Message(d1, 1, REGISTER);
    var d2 := d1.(net := d1.net[1 := d1.net[1].(inbox := d1.net[1].inbox + [REGISTER])]);
    Message(d2, 2, Identity("u", []));
    var d3 := d2.(net := d2.net[2 := d2.net[2].(inbox := d2.net[2].inbox + [Identity("u", [])])]);
    assert [] + [REGISTER] == [REGISTER] && [] + [Identity("u", [])] == [Identity("u", [])];
    assert d3.net == Registering().net;
  }

  lemma RegisterTurn(d: Data, i: nat, d': Data)
    requires Reachable(WORLD, Scanning(d, i)) && i < |d.incoming| && i in d.net && FreshAddr(d, 0)
    requires d.incoming[i] == Conn(i, ChallengeSent) && d.net[i] == Sock1(0, [Challenge], [REGISTER])
    requires d' == d.(net := d.net[i := Sock1(1, GREETED, [])],
                      incoming := d.incoming[i := Registrant(i, MapList, None)])
    ensures Reachable(WORLD, Scanning(d', i + 1))
  {
    hide Reachable, WORLD;
    assert [Challenge] + [RegistrationResponse] == GREETED;
    PeerTurn(d, i, 0, Registrant(i, MapList, None), Sock1(1, GREETED, []), d');
  }

  /** The session that player 5 opens on connection `i`, whose object is placed at `addr`. */
  function Opened(d: Data, i: nat, addr: nat): Session {
    Session(addr, d.created % GUIDS, 5, "u", i, 0)
  }

  ghost function Admitted(d: Data, i: nat): Data
    requires i < |d.incoming|
  {
    d.(net := d.net[i := Sock1(1, WELCOME, [])], created := d.created + 1,
       incoming := d.incoming[i := Conn(i, ChallengeSent).(socket := None)])
  }

  lemma LoginVisit(d: Data, i: nat, addr: nat)
    requires i < |d.incoming| && i in d.net
    requires d.incoming[i] == Conn(i, ChallengeSent) && d.net[i] == Sock1(0, [Challenge], [Identity("u", [])])
    ensures Visit(WORLD, d, i, Fates(addr)) == WantSession(Admitted(d, i), Opened(d, i, addr))
  {
    hide Offer;
    assert FirstPlayer(ROWS.players, "u") == Some(ROWS.players[0]);
    assert d.net[i].inbox[1..] == [] && [Challenge] + [AuthResponse(true, 3)] == WELCOME;
  }

  /** The player logs in on connection `i`: the nested section appends its session. */
  lemma LoginTurn(d: Data, i: nat, addr: nat)
    requires Reachable(WORLD, Scanning(d, i)) && i < |d.incoming| && i in d.net && FreshAddr(d, addr)
    requires d.incoming[i] == Conn(i, ChallengeSent) && d.net[i] == Sock1(0, [Challenge], [Identity("u", [])])
    ensures Reachable(WORLD, Scanning(Close(AppendSession(Admitted(d, i), Opened(d, i, addr)), i), i + 1))
  {
    LoginVisit(d, i, addr);
    hide Reachable, Visit, WORLD, ROWS;
    var d1, x := Admitted(d, i), Opened(d, i, addr);
    Go(WORLD, Scanning(d, i), ScanOne(Fates(addr)), Scanning(d1, i).(i := IWantSessions(i, x)));
    SessionSection(WORLD, Idle(d), d1, i, x);
  }

  lemma AllLoggedIn()
    ensures Reachable(WORLD, Idle(WithSession()))
  {
    hide Reachable, WORLD;
    RegistrationsSent();
    var d0 := Registering();
    var peer := Sock1(1, GREETED, []);
    var d1 := d0.(net := d0.net[0 := peer], incoming := d0.incoming[0 := Registrant(0, MapList, None)]);
    var d2 := d1.(net := d1.net[1 := peer], incoming := d1.incoming[1 := Registrant(1, MapList, None)]);
    var d3 := WithSession();
    BeginScan(d0);
    RegisterTurn(d0, 0, d1);
    RegisterTurn(d1, 1, d2);
    assert d3.net == d2.net[2 := Sock1(1, WELCOME, [])];
    assert d3.incoming == d2.incoming[2 := Conn(2, Done).(socket := None)];
    LoginTurn(d2, 2, 0);
    assert Close(AppendSession(Admitted(d2, 2), Opened(d2, 2, 0)), 2) == d3;
    EndScan(d3, 3);
  }

  ghost function Listing(): Data {
    var peer := Sock1(1, GREETED, [AdvertiseMaps([THEIR_A])]);
    WithSession().(net := map[0 := peer, 1 := peer, 2 := Sock1(1, WELCOME, [SelectCharacter(9)])])
  }

  lemma ListsSent()
    ensures Reachable(WORLD, Idle(Listing()))
  {
    hide Reachable, WORLD;
    AllLoggedIn();
    var d0, m := WithSession(), AdvertiseMaps([THEIR_A]);
    Message(d0, 0, m);
    var d1 := d0.(net := d0.net[0 := d0.net[0].(inbox := d0.net[0].inbox + [m])]);
    Message(d1, 1, m);
    var d2 := d1.(net := d1.net[1 := d1.net[1].(inbox := d1.net[1].inbox + [m])]);
    Message(d2, 2, SelectCharacter(9));
    var d3 := d2.(net := d2.net[2 := d2.net[2].(inbox := d2.net[2].inbox + [SelectCharacter(9)])]);
    assert [] + [m] == [m] && [] + [SelectCharacter(9)] == [SelectCharacter(9)];
    assert d3.net == Listing().net;
  }

  lemma OfferOfA()
    ensures Offer([THEIR_A], [MAP_A], {}) == [MAP_A]
  {
    assert FirstNamed([MAP_A], "a") == Some(MAP_A);
    assert Offer([THEIR_A][..0], [MAP_A], {}) == [];
  }

  lemma OfferTurn(d: Data, i: nat, d': Data)
    requires Reachable(WORLD, Scanning(d, i)) && i < |d.incoming| && i in d.net && FreshAddr(d, 1)
    requires d.incoming[i] == Registrant(i, MapList, None) && d.served == map[]
    requires d.net[i] == Sock1(1, GREETED, [AdvertiseMaps([THEIR_A])])
    requires d' == d.(net := d.net[i := Sock1(2, OFFER, [])], reported := d.reported[i := [THEIR_A]],
                      incoming := d.incoming[i := Registrant(i, MapWaitAck, Some([MAP_A]))])
    ensures Reachable(WORLD, Scanning(d', i + 1))
  {
    hide Reachable, Offer;
    OfferOfA();
    assert d.served.Keys == {};
    var q := Fates(1);
    assert d.net[i].inbox[1..] == [] && GREETED + [RequiredMaps([MAP_A])] == OFFER;
    assert Visit(WORLD, d, i, q) == Continue(d');
    hide Visit;
    Go(WORLD, Scanning(d, i), ScanOne(q), Scanning(d', i + 1));
  }

  lemma BothOffered()
    ensures Reachable(WORLD, Idle(WithOffers()))
  {
    hide Reachable, WORLD;
    ListsSent();
    var d0 := Listing();
    var peer, c := Sock1(2, OFFER, []), Some([MAP_A]);
    var d1 := d0.(net := d0.net[0 := peer], incoming := d0.incoming[0 := Registrant(0, MapWaitAck, c)],
                  reported := d0.reported[0 := [THEIR_A]]);
    var d2 := d1.(net := d1.net[1 := peer], incoming := d1.incoming[1 := Registrant(1, MapWaitAck, c)],
                  reported := d1.reported[1 := [THEIR_A]]);
    BeginScan(d0);
    OfferTurn(d0, 0, d1);
    OfferTurn(d1, 1, d2);
    var q := Fates(1);
    Go(WORLD, Scanning(d2, 2), ScanOne(q), Scanning(d2, 3));
    EndScan(d2, 3);
    assert d2.net == WithOffers().net && d2.incoming == WithOffers().incoming && d2.reported == WithOffers().reported;
  }

  ghost function Acked(): Data {
    var peer := Sock1(2, OFFER, [MapAck]);
    WithOffers().(net := map[0 := peer, 1 := peer, 2 := Sock1(1, WELCOME, [SelectCharacter(9)])])
  }

  lemma AcksSent()
    ensures Reachable(WORLD, Idle(Acked()))
  {
    hide Reachable, WORLD;
    BothOffered();
    var d0 := WithOffers();
    Message(d0, 0, MapAck);
    var d1 := d0.(net := d0.net[0 := d0.net[0].(inbox := d0.net[0].inbox + [MapAck])]);
    Message(d1, 1, MapAck);
    var d2 := d1.(net := d1.net[1 := d1.net[1].(inbox := d1.net[1].inbox + [MapAck])]);
    assert [] + [MapAck] == [MapAck];
    assert d2.net == Acked().net;
  }

  lemma AckWaits(d: Data, i: nat, q: Fate)
    requires i < |d.incoming| && i in d.net
    requires d.incoming[i] == Registrant(i, MapWaitAck, Some([MAP_A]))
    requires d.net[i] == Sock1(2, OFFER, [MapAck])
    ensures Visit(WORLD, d, i, q) == WantServer(d.(net := d.net[i := Sock1(3, OFFER, [])]))
  {
    hide WORLD, OnChallengeSent, OnLoginFailed, OnMapList;
    assert d.incoming[i := d.incoming[i]] == d.incoming;
    assert d.net[i].inbox[1..] == [];
  }

  /** A map server's acknowledgement, up to the point where `mapServersMutex` is held. */
  lemma AckLocked(d: Data, i: nat, d1: Data)
    requires Reachable(WORLD, Scanning(d, i)) && i < |d.incoming| && i in d.net && FreshAddr(d, 1)
    requires d.incoming[i] == Registrant(i, MapWaitAck, Some([MAP_A]))
    requires d.net[i] == Sock1(2, OFFER, [MapAck])
    requires d1 == d.(net := d.net[i := Sock1(3, OFFER, [])])
    ensures Reachable(WORLD, Scanning(d1, i).(i := IHoldMaps(i), mapLock := Some(Incoming)))
  {
    hide Reachable, WORLD, Visit;
    var q := Fates(1);
    AckWaits(d, i, q);
    var s1 := Scanning(d1, i).(i := IWantMaps(i));
    Go(WORLD, Scanning(d, i), ScanOne(q), s1);
    Go(WORLD, s1, LockMaps, s1.(i := IHoldMaps(i), mapLock := Some(Incoming)));
  }

  /** ... its registration, and the end of its turn. */
  lemma AckRegistered(d: Data, i: nat, d': Data)
    requires Reachable(WORLD, Scanning(d, i).(i := IHoldMaps(i), mapLock := Some(Incoming)))
    requires i < |d.incoming| && Enrollable(d.incoming[i]) && d' == Enlist(d, i, 0)
    ensures Reachable(WORLD, Scanning(d', i).(i := IFinish(i)))
    ensures i < |d'.incoming| && Reachable(WORLD, Scanning(Close(d', i), i + 1))
  {
    EnlistLength(d, i);
    hide Reachable, WORLD, Enlist, Enrollable;
    var s := Scanning(d, i).(i := IHoldMaps(i), mapLock := Some(Incoming));
    var s' := Scanning(d', i).(i := IFinish(i));
    Go(WORLD, s, Register(0), s');
    Go(WORLD, s', Finish, Scanning(Close(d', i), i + 1));
  }

  lemma EnlistLength(d: Data, i: nat)
    requires i < |d.incoming| && Enrollable(d.incoming[i])
    ensures |Enlist(d, i, 0).incoming| == |d.incoming|
  {
  }

  /** Everybody kept to the protocol: both map servers were sent the offer they acknowledged, the player its welcome. */
  ghost predicate Honest(d: Data) {
    && 0 in d.net && d.net[0] == Sock1(3, OFFER, []) && 1 in d.net && d.net[1] == Sock1(3, OFFER, [])
    && 2 in d.net && d.net[2].outbox == WELCOME
  }

  /** What matters once both have registered: the player waits, and the one index entry is stale. */
  ghost predicate Stale(d: Data) {
    && d.sessions == [Some(Session(0, 0, 5, "u", 2, 0))] && 2 in d.net
    && d.net[2] == Sock1(1, WELCOME, [SelectCharacter(9)])
    && "a" in d.served && d.served["a"].generation != d.generation && |d.servers| == 2
  }

  /** The first map server is registered and fills the reserved room; the second one's acknowledgement waits. */
  ghost predicate OneIn(d: Data) {
    && |d.incoming| == 3 && d.incoming[1] == Registrant(1, MapWaitAck, Some([MAP_A]))
    && 0 in d.net && d.net[0] == Sock1(3, OFFER, []) && 1 in d.net && d.net[1] == Sock1(2, OFFER, [MapAck])
    && |d.servers| == 1 && d.capacity == 1 && d.generation == 0 && "a" in d.served && d.served["a"] == Ptr(0, 0)
    && d.sessions == [Some(Session(0, 0, 5, "u", 2, 0))] && 2 in d.net && d.net[2] == Sock1(1, WELCOME, [SelectCharacter(9)])
  }

  lemma FirstRegisters() returns (d: Data)
    ensures Reachable(WORLD, Scanning(d, 1)) && OneIn(d)
  {
    hide Reachable, WORLD;
    AcksSent();
    var d0 := Acked();
    assert d0.capacity == 1 by { OneMap(); }
    BeginScan(d0);
    var d1 := d0.(net := d0.net[0 := Sock1(3, OFFER, [])]);
    AckLocked(d0, 0, d1);
    AckRegistered(d1, 0, Enlist(d1, 0, 0));
    d := Close(Enlist(d1, 0, 0), 0);
    assert MAP_A in [MAP_A] && "a" in Names([MAP_A]);
  }

  /** The second registration replaces the storage, and the name keeps its pointer into the old one. */
  lemma BothRegister() returns (d: Data)
    ensures Reachable(WORLD, Scanning(d, 1).(i := IFinish(1))) && Stale(d) && Honest(d)
  {
    hide Reachable, WORLD;
    var d2 := FirstRegisters();
    var d3 := d2.(net := d2.net[1 := Sock1(3, OFFER, [])]);
    AckLocked(d2, 1, d3);
    d := Enlist(d3, 1, 0);
    AckRegistered(d3, 1, d);
  }

  lemma OneMap()
    ensures Room(WORLD) == 1
  {
  }

  /** The two pending offers of one map are what `NoSharedOffers` rules out; this run then faults. */
  lemma SharedOfferFaults()
    ensures exists s: Sys, e :: Reachable(WORLD, s) && Honest(s.d) && Step(WORLD, s, e).Crashed?
  {
    hide Reachable;
    var d := BothRegister();
    var s := Scanning(d, 1).(i := IFinish(1));
    var s' := s.(c := CScan(0, false), sessionLock := Some(Connected));
    var q := Fates(1);
    Go(WORLD, s, PassStart, s');
    SelectFaults(d, q);
    assert Honest(s'.d) && Step(WORLD, s', ServeOne(q)).Crashed?;
  }

  lemma SelectFaults(d: Data, q: Fate)
    requires Stale(d) && q.db == ROWS
    ensures Serve(WORLD, d, 0, q).Crash?
  {
    var own := (ch: Character) => Owns(ch, 5) && ch.id == 9;
    assert ROWS.characters[..0] == [] && Filter(own, ROWS.characters[..0]) == [];
    assert Filter(own, ROWS.characters) == [ROWS.characters[0]];
    var x, k := d.sessions[0].value, d.net[2];
    var routes := Routes(WORLD, d.servers, d.served, d.generation);
    assert routes(7) == Dangling;
    assert Attend(x, k, Ask(q.send, q.db, {}), routes).ReadDangling?;
  }
}
