/** The login server object: its handlers and its two processing loops, as they update its containers. */
module LoginServer {
  import opened Prelude
  import opened Domain
  import opened Handlers
  import opened LoginData
  import opened Ownership

  // --- Whole turns, nested sections included ---

  /** The containers after a handler's effect on connection `i`, with the nested section it calls for. */
  ghost function Land(d: Data, i: nat, e: Effect, q: Fate): Data
    requires i < |d.incoming| && d.incoming[i].socket.Some?
    requires e.next.Enrol? ==> Enrollable(e.conn)
  {
    var id := d.incoming[i].socket.value;
    var d' := d.(net := d.net[id := e.sock], incoming := d.incoming[i := e.conn]);
    match e.next
    case OpenSession(playerID, username) =>
      Close(AppendSession(d'.(incoming := d.incoming[i := e.conn.(socket := None)], created := d.created + 1),
                          Session(q.addr, d.created % GUIDS, playerID, username, id, 0)), i)
    case Enrol => Close(Enlist(d', i, q.spare), i)
    case _ => d'
  }

  /** A connection is ready for a visit: unless done, it has a socket and its bookkeeping is coherent. */
  ghost predicate Ready(d: Data, i: nat)
    requires i < |d.incoming|
  {
    var c := d.incoming[i];
    Coherent(c) && (!c.state.Done? ==> c.socket.Some? && c.socket.value in d.net)
  }

  function AskFor(q: Fate, served: set<string>): Ask {
    Ask(q.send, q.db, served)
  }

  lemma DispatchReady(env: Env, c: Connection, k: Sock, q: Ask)
    requires Coherent(c)
    ensures var e := Dispatch(env, c, k, q);
            && !e.next.Abort? && Coherent(e.conn.(state := Done)) && (e.next.Stay? ==> Coherent(e.conn))
            && (e.next.Enrol? ==> e.conn == c && c.state.MapWaitAck?) && e.conn.socket == c.socket
  {
    hide Offer, FirstPlayer;
  }

  /** One whole turn of the loop in `processIncoming`. */
  ghost function Turn(env: Env, d: Data, i: nat, q: Fate): Data
    requires i < |d.incoming| && Ready(d, i)
  {
    var c := d.incoming[i];
    if c.state.Done? then d
    else
      var id := c.socket.value;
      var k := d.net[id];
      if k.error then Close(d, i)
      else
        DispatchReady(env, c, k, AskFor(q, d.served.Keys));
        Land(d.(reported := Reported(d, c, k, id)), i, Dispatch(env, c, k, AskFor(q, d.served.Keys)), q)
  }

  /** The turn that the thread system splits at its lock boundaries is this turn. */
  lemma TurnIsVisit(env: Env, d: Data, i: nat, q: Fate)
    requires i < |d.incoming| && Ready(d, i)
    ensures match Visit(env, d, i, q)
            case Fault => false
            case Continue(d') => Turn(env, d, i, q) == d'
            case WantSession(d', s) => i < |d'.incoming| && Turn(env, d, i, q) == Close(AppendSession(d', s), i)
            case WantServer(d') =>
              && i < |d'.incoming| && Enrollable(d'.incoming[i])
              && i < |Enlist(d', i, q.spare).incoming| && Turn(env, d, i, q) == Close(Enlist(d', i, q.spare), i)
  {
    hide Dispatch, EmplaceAll, Reported;
    var c := d.incoming[i];
    if !c.state.Done? && !d.net[c.socket.value].error {
      DispatchReady(env, c, d.net[c.socket.value], AskFor(q, d.served.Keys));
    }
  }

  /** The turns of one scan, first connection first. */
  ghost function Turns(env: Env, d: Data, n: nat, qs: seq<Fate>): (r: Data)
    requires n <= |d.incoming| && n <= |qs| && AllReady(d)
    ensures |r.incoming| == |d.incoming| && AllReady(r)
  {
    if n == 0 then d
    else
      hide Turn, Coherent;
      var before := Turns(env, d, n - 1, qs);
      TurnKeepsReady(env, before, n - 1, qs[n - 1]);
      Turn(env, before, n - 1, qs[n - 1])
  }

  ghost predicate AllReady(d: Data) {
    forall x :: 0 <= x < |d.incoming| ==> Ready(d, x)
  }

  lemma LandKeepsReady(d: Data, i: nat, e: Effect, q: Fate)
    requires i < |d.incoming| && d.incoming[i].socket.Some? && AllReady(d)
    requires e.next.Enrol? ==> Enrollable(e.conn)
    requires Coherent(e.conn.(state := Done)) && (e.next.Stay? ==> Coherent(e.conn)) && !e.next.Abort?
    requires e.conn.socket == d.incoming[i].socket
    ensures |Land(d, i, e, q).incoming| == |d.incoming| && AllReady(Land(d, i, e, q))
  {
    hide EmplaceAll;
    var t := Land(d, i, e, q);
    assert forall id :: id in d.net ==> id in t.net;
    forall x | 0 <= x < |t.incoming|
      ensures Ready(t, x)
    {
      assert Ready(d, x);
    }
  }

  lemma ReportKeepsReady(d: Data, r: map<SockId, seq<Location>>)
    requires AllReady(d)
    ensures AllReady(d.(reported := r))
  {
    hide Coherent;
    var t := d.(reported := r);
    forall x | 0 <= x < |t.incoming|
      ensures Ready(t, x)
    {
      assert Ready(d, x);
    }
  }

  lemma TurnKeepsReady(env: Env, d: Data, i: nat, q: Fate)
    requires i < |d.incoming| && AllReady(d)
    ensures |Turn(env, d, i, q).incoming| == |d.incoming| && AllReady(Turn(env, d, i, q))
  {
    hide Dispatch, Reported;
    assert Ready(d, i);
    var c := d.incoming[i];
    if !c.state.Done? {
      var k := d.net[c.socket.value];
      DispatchReady(env, c, k, AskFor(q, d.served.Keys));
      if k.error {
        CloseKeepsReady(d, i);
      } else {
        var d' := d.(reported := Reported(d, c, k, c.socket.value));
        ReportKeepsReady(d, d'.reported);
        LandKeepsReady(d', i, Dispatch(env, c, k, AskFor(q, d.served.Keys)), q);
      }
    }
  }

  lemma CloseKeepsReady(d: Data, i: nat)
    requires i < |d.incoming| && AllReady(d)
    ensures AllReady(Close(d, i))
  {
    var t := Close(d, i);
    forall x | 0 <= x < |t.incoming|
      ensures Ready(t, x)
    {
      assert Ready(d, x);
    }
  }

  /** Taking a message first, and then writing the socket back, is writing the socket back. */
  lemma LandAfterTake(d: Data, i: nat, k: Sock, e: Effect, q: Fate)
    requires i < |d.incoming| && d.incoming[i].socket.Some? && !e.next.Enrol?
    ensures Land(d.(net := d.net[d.incoming[i].socket.value := k]), i, e, q) == Land(d, i, e, q)
  {
    var id := d.incoming[i].socket.value;
    assert d.net[id := k][id := e.sock] == d.net[id := e.sock];
  }

  /** The check of the attempt count, made after a login message has been dealt with. */
  lemma LandExhaust(d: Data, i: nat, e: Effect, q: Fate)
    requires i < |d.incoming| && d.incoming[i].socket.Some? && (e.next.Stay? || e.next.OpenSession?)
    ensures var t := Land(d, i, e, q);
            && |t.incoming| == |d.incoming|
            && Land(d, i, Exhaust(e), q)
               == t.(incoming := if t.incoming[i].attempts == MAX_ATTEMPTS
                                 then t.incoming[i := t.incoming[i].(state := Done)] else t.incoming)
  {
    var t := Land(d, i, e, q);
    assert t.incoming[i := t.incoming[i]] == t.incoming;
  }

  lemma LoginStaysOrOpens(env: Env, c: Connection, k: Sock, m: Inbound, q: Ask)
    requires m.Identity?
    ensures var e := LoginAttempt(env, c, k, m, q); e.next.Stay? || e.next.OpenSession?
  {
    hide FirstPlayer;
  }

  /** The login states do not look at the served names. */
  lemma ServedIsUnused(env: Env, c: Connection, k: Sock, q: Fate, served: set<string>)
    requires c.state.ChallengeSent? || c.state.LoginFailed?
    ensures Dispatch(env, c, k, AskFor(q, served)) == Dispatch(env, c, k, AskFor(q, {}))
  {
    hide FirstPlayer, Offer;
  }

  /** The acknowledgement handler, seen as a whole turn. */
  lemma AckTurn(env: Env, d: Data, i: nat, q: Fate)
    requires i < |d.incoming| && Ready(d, i) && d.incoming[i].state.MapWaitAck?
    requires !d.net[d.incoming[i].socket.value].error
    ensures var c, k := d.incoming[i], d.net[d.incoming[i].socket.value];
            Turn(env, d, i, q) == if k.inbox == [] then d
                                  else Land(d, i, OnMapWaitAck(c, Receive(k).(read := k.read + 1), k.inbox[0]), q)
  {
    hide OnChallengeSent, OnLoginFailed, OnMapList, EmplaceAll;
    var id := d.incoming[i].socket.value;
    assert d.net[id := d.net[id]] == d.net && d.incoming[i := d.incoming[i]] == d.incoming;
  }

  lemma PurgeKeepsReady(d: Data)
    requires AllReady(d)
    ensures AllReady(Purge(d))
  {
    var t := Purge(d);
    forall x | 0 <= x < |t.incoming|
      ensures Ready(t, x)
    {
      var y := FilterPlace(NotDone, d.incoming, x);
      assert Ready(d, y);
    }
  }

  // --- Live sessions ---

  /** From place `n` on no session is null, every socket is known, and no map server pointer dangles. */
  ghost predicate PassReady(d: Data, n: nat) {
    && n <= |d.sessions|
    && (forall j :: n <= j < |d.sessions| ==> d.sessions[j].Some? && d.sessions[j].value.socket in d.net)
    && (forall u :: u in d.served ==> d.served[u].generation == d.generation && d.served[u].index < |d.servers|)
  }

  lemma AttendIsSafe(s: Session, k: Sock, q: Ask, route: nat -> Route)
    requires forall l: nat :: route(l) != Dangling
    ensures Attend(s, k, q, route).Attended? && Attend(s, k, q, route).session.socket == s.socket
  {
    hide Filter, Transmit;
  }

  lemma NoRouteDangles(env: Env, d: Data, n: nat)
    requires PassReady(d, n)
    ensures forall l: nat :: Routes(env, d.servers, d.served, d.generation)(l) != Dangling
  {
  }

  lemma ServeKeepsPassReady(env: Env, d: Data, j: nat, q: Fate)
    requires j < |d.sessions| && PassReady(d, j)
    ensures var v := Serve(env, d, j, q);
            !v.Crash? && |v.d.sessions| == |d.sessions| && PassReady(v.d, j + 1) && v.d.net.Keys == d.net.Keys
  {
    hide Attend, Routes;
    var s := d.sessions[j].value;
    NoRouteDangles(env, d, j);
    AttendIsSafe(s, d.net[s.socket], Ask(q.send, q.db, {}), Routes(env, d.servers, d.served, d.generation));
  }

  /** The turns of one pass over the sessions, and whether any session was cleared. */
  ghost function Pass(env: Env, d: Data, n: nat, qs: seq<Fate>): (r: (Data, bool))
    requires n <= |d.sessions| && n <= |qs| && PassReady(d, 0)
    ensures |r.0.sessions| == |d.sessions| && PassReady(r.0, n)
  {
    if n == 0 then (d, false)
    else
      var before := Pass(env, d, n - 1, qs);
      ServeKeepsPassReady(env, before.0, n - 1, qs[n - 1]);
      var v := Serve(env, before.0, n - 1, qs[n - 1]);
      (v.d, before.1 || v.Gone?)
  }

  lemma RefuseStays(c: Connection, k: Sock, r: SendResult)
    ensures Refuse(c, k, r).next.Stay?
  {
  }

  class Server {
    var net: map<SockId, Sock>
    var incoming: seq<Connection>
    var sessions: seq<Option<Session>>
    var index: map<string, nat>
    var servers: seq<MapServer>
    var served: map<string, Ptr>
    var generation: nat
    var capacity: nat
    var created: nat
    ghost var reported: map<SockId, seq<Location>>
    ghost var dropped: seq<SockId>

    ghost function State(): Data
      reads this
    {
      Data(net, incoming, sessions, index, servers, served, generation, capacity, created, reported, dropped)
    }

    /** After `processMaps`: empty containers, and room reserved for at least one map server per loaded map. */
    constructor (env: Env)
      ensures State() == Start(env)
    {
      net, incoming, sessions, index := map[], [], [], map[];
      servers, served, generation, capacity, created := [], map[], 0, Room(env), 0;
      reported, dropped := map[], [];
    }

    /** The acceptor hands over a new socket. */
    method AcceptConnection(id: SockId)
      requires id !in net
      modifies this
      ensures State() == Accept(old(State()).(net := old(net)[id := NEW_SOCK]), id)
    {
      net := net[id := NEW_SOCK];
      incoming := incoming + [NewConnection(id)];
    }

    // --- Small steps on one connection ---

    method SetState(i: nat, state: ConnState)
      requires i < |incoming|
      modifies this`incoming
      ensures incoming == old(incoming)[i := old(incoming)[i].(state := state)]
    {
      incoming := incoming[i := incoming[i].(state := state)];
    }

    method Send(id: SockId, m: Outbound, r: SendResult)
      requires id in net
      modifies this`net
      ensures net == old(net)[id := Transmit(old(net)[id], m, r)]
    {
      var k := net[id];
      match r {
        case Sent => net := net[id := k.(outbox := k.outbox + [m])];
        case Lost => net := net[id := k];
        case Broken => net := net[id := k.(error := true)];
        case Negative => net := net[id := k];
      }
    }

    method TakeMessage(id: SockId) returns (m: Inbound)
      requires id in net && net[id].inbox != []
      modifies this`net
      ensures m == old(net)[id].inbox[0]
      ensures net == old(net)[id := Receive(old(net)[id]).(read := old(net)[id].read + 1)]
    {
      m := net[id].inbox[0];
      net := net[id := net[id].(inbox := net[id].inbox[1..], read := net[id].read + 1)];
    }

    /** A failed attempt: one attempt fewer, and a response that says how many remain. */
    method RefuseAttempt(i: nat, id: SockId, r: SendResult)
      requires i < |incoming| && incoming[i].socket == Some(id) && id in net
      modifies this`incoming, this`net
      ensures var e := Refuse(old(incoming)[i], old(net)[id], r);
              incoming == old(incoming)[i := e.conn] && net == old(net)[id := e.sock]
    {
      incoming := incoming[i := incoming[i].(state := LoginFailed, attempts := incoming[i].attempts + 1)];
      Send(id, AuthResponse(false, MAX_ATTEMPTS - incoming[i].attempts), r);
    }

    method CloseIfExhausted(i: nat)
      requires i < |incoming|
      modifies this`incoming
      ensures incoming == if old(incoming)[i].attempts == MAX_ATTEMPTS
                          then old(incoming)[i := old(incoming)[i].(state := Done)] else old(incoming)
    {
      if incoming[i].attempts == MAX_ATTEMPTS {
        SetState(i, Done);
      }
    }

    // --- Per-state handlers ---

    method ProcessFreshSocket(i: nat, q: Fate)
      requires i < |incoming| && incoming[i].socket.Some? && incoming[i].socket.value in net
      modifies this
      ensures var id := old(incoming)[i].socket.value;
              State() == Land(old(State()), i, OnFresh(old(incoming)[i], old(net)[id], AskFor(q, {})), q)
    {
      var id := incoming[i].socket.value;
      Send(id, Challenge, q.send);
      if net[id].error {
        SetState(i, Done);
      } else {
        SetState(i, ChallengeSent);
      }
    }

    /** Finding the player row: the first with that name. */
    method FindPlayer(rows: seq<Player>, username: string) returns (p: Option<Player>)
      ensures p == FirstPlayer(rows, username)
    {
      var n := 0;
      while n < |rows|
        invariant 0 <= n <= |rows| && FirstPlayer(rows, username) == FirstPlayer(rows[n..], username)
      {
        if rows[n].username == username {
          return Some(rows[n]);
        }
        n := n + 1;
      }
      return None;
    }

    /** Guarded by `playerSessionMutex`. */
    method AppendNewSession(session: Session)
      modifies this`sessions, this`index
      ensures State() == AppendSession(old(State()), session)
    {
      sessions := sessions + [Some(session)];
      if session.username !in index {
        index := index[session.username := session.addr];
      }
    }

    method ProcessLoginAttempt(env: Env, i: nat, m: Inbound, q: Fate)
      requires m.Identity? && i < |incoming| && incoming[i].socket.Some? && incoming[i].socket.value in net
      modifies this
      ensures var id := old(incoming)[i].socket.value;
              State() == Land(old(State()), i, LoginAttempt(env, old(incoming)[i], old(net)[id], m, AskFor(q, {})), q)
    {
      hide FirstPlayer;
      var id := incoming[i].socket.value;
      var row := FindPlayer(q.db.players, m.username);
      if row.None? {
        RefuseAttempt(i, id, q.send);
        return;
      }
      var p := row.value;
      if p.locked {
        Send(id, AuthResponse(false, 0), q.send);
        net := net[id := net[id].(connected := false)];
        SetState(i, Done);
        return;
      }
      if env.accepts(p.stored, m.encrypted) {
        Send(id, AuthResponse(true, MAX_ATTEMPTS - incoming[i].attempts), q.send);
        var session := Session(q.addr, created % GUIDS, p.id, m.username, id, 0);
        created := created + 1;
        incoming := incoming[i := incoming[i].(socket := None)];
        AppendNewSession(session);
        SetState(i, Done);
      } else {
        RefuseAttempt(i, id, q.send);
      }
    }

    method ProcessMapAuthenticationRequest(i: nat, id: SockId, r: SendResult) returns (ok: bool)
      requires i < |incoming| && id in net
      modifies this`net, this`incoming
      ensures ok == r.Sent?
      ensures net == old(net)[id := var k := Transmit(old(net)[id], RegistrationResponse, r);
                                    if ok then k else k.(unanswered := k.unanswered + 1)]
      ensures incoming == if ok then old(incoming)[i := old(incoming)[i].(state := MapList)] else old(incoming)
    {
      Send(id, RegistrationResponse, r);
      if !r.Sent? {
        net := net[id := net[id].(unanswered := net[id].unanswered + 1)];
        return false;
      }
      SetState(i, MapList);
      return true;
    }

    /** A login attempt made in either login state, with the check that follows it. */
    method AttemptThenCheck(env: Env, i: nat, m: Inbound, q: Fate)
      requires m.Identity? && i < |incoming| && incoming[i].socket.Some? && incoming[i].socket.value in net
      modifies this
      ensures var id := old(incoming)[i].socket.value;
              State() == Land(old(State()), i,
                              Exhaust(LoginAttempt(env, old(incoming)[i], old(net)[id], m, AskFor(q, {}))), q)
    {
      hide LoginAttempt, Land;
      ghost var d, id := State(), incoming[i].socket.value;
      ghost var e := LoginAttempt(env, incoming[i], net[id], m, AskFor(q, {}));
      LoginStaysOrOpens(env, incoming[i], net[id], m, AskFor(q, {}));
      LandExhaust(d, i, e, q);
      ProcessLoginAttempt(env, i, m, q);
      CloseIfExhausted(i);
    }

    /** Unexpected data costs an attempt, like a wrong password. */
    method RefuseThenCheck(i: nat, q: Fate)
      requires i < |incoming| && incoming[i].socket.Some? && incoming[i].socket.value in net
      modifies this
      ensures var id := old(incoming)[i].socket.value;
              State() == Land(old(State()), i, Exhaust(Refuse(old(incoming)[i], old(net)[id], q.send)), q)
    {
      ghost var d, id := State(), incoming[i].socket.value;
      ghost var e := Refuse(incoming[i], net[id], q.send);
      LandExhaust(d, i, e, q);
      RefuseAttempt(i, incoming[i].socket.value, q.send);
      assert State() == Land(d, i, e, q);
      CloseIfExhausted(i);
    }

    method ProcessChallengeSentSocket(env: Env, i: nat, q: Fate)
      requires i < |incoming| && incoming[i].socket.Some? && incoming[i].socket.value in net
      requires incoming[i].state.ChallengeSent?
      modifies this
      ensures var id := old(incoming)[i].socket.value;
              State() == Land(old(State()), i, Dispatch(env, old(incoming)[i], old(net)[id], AskFor(q, {})), q)
    {
      hide OnMapList, OnLoginFailed, OnMapWaitAck, LoginAttempt, Refuse;
      var id := incoming[i].socket.value;
      if net[id].inbox == [] {
        assert net[id := net[id]] == net && incoming[i := incoming[i]] == incoming;
        return;
      }
      ghost var d, c := State(), incoming[i];
      var m := TakeMessage(id);
      ghost var k := net[id];
      if m.Identity? {
        LoginStaysOrOpens(env, c, k, m, AskFor(q, {}));
        LandAfterTake(d, i, k, OnChallengeSent(env, c, k, m, AskFor(q, {})), q);
        AttemptThenCheck(env, i, m, q);
      } else if m.Empty? || m.VersionMismatch? {
        SetState(i, Done);
      } else if m.RegistrationRequest? {
        incoming := incoming[i := incoming[i].(name := Some(m.name), address := Some(m.address), port := Some(m.port))];
        var ok := ProcessMapAuthenticationRequest(i, id, q.send);
        if !ok {
          return;
        }
        CloseIfExhausted(i);
      } else {
        RefuseStays(c, k, q.send);
        LandAfterTake(d, i, k, OnChallengeSent(env, c, k, m, AskFor(q, {})), q);
        RefuseThenCheck(i, q);
      }
    }

    method ProcessLoginFailedSocket(env: Env, i: nat, q: Fate)
      requires i < |incoming| && incoming[i].socket.Some? && incoming[i].socket.value in net
      requires incoming[i].state.LoginFailed?
      modifies this
      ensures var id := old(incoming)[i].socket.value;
              State() == Land(old(State()), i, Dispatch(env, old(incoming)[i], old(net)[id], AskFor(q, {})), q)
    {
      hide OnMapList, OnChallengeSent, OnMapWaitAck, LoginAttempt, Refuse;
      var id := incoming[i].socket.value;
      if net[id].inbox == [] {
        assert net[id := net[id]] == net && incoming[i := incoming[i]] == incoming;
        return;
      }
      ghost var d, c := State(), incoming[i];
      var m := TakeMessage(id);
      ghost var k := net[id];
      if m.Identity? {
        LoginStaysOrOpens(env, c, k, m, AskFor(q, {}));
        LandAfterTake(d, i, k, OnLoginFailed(env, c, k, m, AskFor(q, {})), q);
        AttemptThenCheck(env, i, m, q);
      } else if m.Empty? {
        SetState(i, Done);
      } else {
        RefuseStays(c, k, q.send);
        LandAfterTake(d, i, k, OnLoginFailed(env, c, k, m, AskFor(q, {})), q);
        RefuseThenCheck(i, q);
      }
    }

    method ProcessMapListSocket(env: Env, i: nat, q: Fate)
      requires i < |incoming| && incoming[i].socket.Some? && incoming[i].socket.value in net
      requires incoming[i].state.MapList?
      modifies this
      ensures var id := old(incoming)[i].socket.value;
              State() == Land(old(State()).(reported := Reported(old(State()), old(incoming)[i], old(net)[id], id)), i,
                              Dispatch(env, old(incoming)[i], old(net)[id], AskFor(q, old(served).Keys)), q)
    {
      hide OnChallengeSent, OnLoginFailed, OnMapWaitAck, Offer;
      var id := incoming[i].socket.value;
      if net[id].inbox == [] {
        assert net[id := net[id]] == net && incoming[i := incoming[i]] == incoming;
        return;
      }
      var m := TakeMessage(id);
      if !m.AdvertiseMaps? {
        SetState(i, Done);
        return;
      }
      reported := reported[id := m.maps];
      var response := NegotiateMaps(m.maps, env.allMaps, served.Keys);
      if response == [] {
        Send(id, NotNeeded, q.send);
        SetState(i, Done);
        return;
      }
      Send(id, RequiredMaps(response), q.send);
      incoming := incoming[i := incoming[i].(maps := Some(response))];
      SetState(i, MapWaitAck);
    }

    /** The REQUIREs of the source are the precondition; `Coherent` discharges them in every reachable state. */
    method ProcessMapWaitAckSocket(i: nat, q: Fate)
      requires i < |incoming| && Enrollable(incoming[i]) && incoming[i].socket.value in net
      modifies this
      ensures var id, c, k := old(incoming)[i].socket.value, old(incoming)[i], old(net)[old(incoming)[i].socket.value];
              State() == if k.inbox == [] then old(State())
                         else Land(old(State()), i, OnMapWaitAck(c, Receive(k).(read := k.read + 1), k.inbox[0]), q)
    {
      var id := incoming[i].socket.value;
      if net[id].inbox == [] {
        return;
      }
      ghost var d := State();
      var m := TakeMessage(id);
      if m.Empty? {
        SetState(i, Done);
        return;
      }
      ghost var k := net[id];
      assert d.(net := net, incoming := d.incoming[i := d.incoming[i]]) == State() by {
        assert d.incoming[i := d.incoming[i]] == d.incoming;
      }
      RegisterServer(i, q.spare);
      SetState(i, Done);
    }

    /** Guarded by `mapServersMutex`: `emplace_back`, which replaces the storage when it is full, then the names. */
    method RegisterServer(i: nat, spare: nat)
      requires i < |incoming| && Enrollable(incoming[i])
      modifies this
      ensures State() == Enlist(old(State()), i, spare)
    {
      var c := incoming[i];
      if |servers| >= capacity {
        generation, capacity := generation + 1, |servers| + 1 + spare;
      }
      servers := servers + [MapServer(c.address.value, c.port.value, c.socket.value, c.maps.value, c.name.value)];
      incoming := incoming[i := c.(socket := None, maps := Some([]))];
      EmplaceNames(c.maps.value, Ptr(generation, |servers| - 1));
    }

    /** The loop over the newest server's maps; `emplace` keeps an entry that is already there. */
    method EmplaceNames(maps: seq<Location>, p: Ptr)
      modifies this`served
      ensures served == EmplaceAll(old(served), maps, p)
    {
      var n := 0;
      while n < |maps|
        invariant 0 <= n <= |maps|
        invariant served == EmplaceAll(old(served), maps[..n], p)
      {
        assert maps[..n + 1] == maps[..n] + [maps[n]];
        assert Names(maps[..n + 1]) == Names(maps[..n]) + {maps[n].name};
        if maps[n].name !in served {
          served := served[maps[n].name := p];
        }
        n := n + 1;
      }
      assert maps[..n] == maps;
    }

    // --- The two loops ---

    /** One turn of the scan. */
    method ProcessConnection(env: Env, i: nat, q: Fate)
      requires i < |incoming| && Ready(State(), i)
      modifies this
      ensures State() == Turn(env, old(State()), i, q)
    {
      hide OnChallengeSent, OnLoginFailed, OnMapList, Land;
      ghost var d := State();
      if incoming[i].state.Done? {
        return;
      }
      var id := incoming[i].socket.value;
      if net[id].error {
        SetState(i, Done);
        return;
      }
      ghost var c, k := incoming[i], net[id];
      match incoming[i].state {
        case Fresh => ProcessFreshSocket(i, q);
        case ChallengeSent => ServedIsUnused(env, c, k, q, d.served.Keys); ProcessChallengeSentSocket(env, i, q);
        case LoginFailed => ServedIsUnused(env, c, k, q, d.served.Keys); ProcessLoginFailedSocket(env, i, q);
        case MapList => ProcessMapListSocket(env, i, q);
        case MapWaitAck =>
          ProcessMapWaitAckSocket(i, q);
          AckTurn(env, d, i, q);
      }
    }

    /** `processIncoming`: one scan of the connections, and the purge when its time has come. */
    method ProcessIncoming(env: Env, qs: seq<Fate>, purge: bool)
      requires AllReady(State()) && |qs| >= |incoming|
      modifies this
      ensures AllReady(State())
      ensures var r := Turns(env, old(State()), |old(incoming)|, qs); State() == if purge then Purge(r) else r
    {
      hide Turn, Ready, Filter, Sockets;
      ghost var d, size := State(), |incoming|;
      var i := 0;
      while i < |incoming|
        invariant 0 <= i <= |incoming| == size
        invariant State() == Turns(env, d, i, qs) && AllReady(State())
      {
        TurnKeepsReady(env, State(), i, qs[i]);
        ProcessConnection(env, i, qs[i]);
        i := i + 1;
      }
      if purge {
        PurgeKeepsReady(State());
        dropped := dropped + Sockets(Filter(IsDone, incoming));
        incoming := Filter(NotDone, incoming);
      }
    }

    // --- Live sessions ---

    method ProcessCharacterRequest(j: nat, q: Fate)
      requires j < |sessions| && sessions[j].Some? && sessions[j].value.socket in net
      modifies this`net
      ensures var s, id := old(sessions)[j].value, old(sessions)[j].value.socket;
              net == old(net)[id := ListCharacters(s, old(net)[id], AskFor(q, {})).sock]
    {
      hide Filter;
      var s := sessions[j].value;
      Send(s.socket, PlayerCharacters(Filter((ch: Character) => Owns(ch, s.playerID), q.db.characters)), q.send);
      if IsZero(q.send) {
        net := net[s.socket := net[s.socket].(connected := false, error := true)];
      }
    }

    method ProcessCharacterSelect(env: Env, j: nat, m: Inbound, q: Fate)
      requires (m.SelectCharacter? || m.SelectTruncated?) && PassReady(State(), j) && j < |sessions|
      modifies this`net, this`sessions
      ensures var s, id := old(sessions)[j].value, old(sessions)[j].value.socket;
              var routes := Routes(env, servers, served, generation);
              && (m.SelectTruncated? ==>
                    && sessions == old(sessions)
                    && net == old(net)[id := Transmit(old(net)[id], MalformedPacket, q.send)])
              && (m.SelectCharacter? ==>
                    var a := ChooseCharacter(s, old(net)[id], m.id, AskFor(q, {}), routes);
                    && a.Attended? && net == old(net)[id := a.sock] && sessions == old(sessions)[j := Some(a.session)])
    {
      hide Filter;
      var s := sessions[j].value;
      if m.SelectTruncated? {
        Send(s.socket, MalformedPacket, q.send);
        return;
      }
      var rows := Filter((ch: Character) => Owns(ch, s.playerID) && ch.id == m.id, q.db.characters);
      assert sessions[j := Some(s)] == sessions;
      if |rows| != 1 {
        net := net[s.socket := net[s.socket].(connected := false)];
        return;
      }
      var location := rows[0].locationID;
      if location !in env.idToName || env.idToName[location] !in served {
        Send(s.socket, NoMapServer, q.send);
      } else {
        var server := servers[served[env.idToName[location]].index];
        Send(s.socket, Instructions(server.friendlyName, server.host, server.port), q.send);
        if !IsZero(q.send) {
          sessions := sessions[j := Some(s.(characterID := m.id))];
        }
      }
    }

    /** The block under `hasActivity`: the opcode, and the request it announces. */
    method AnswerSession(env: Env, j: nat, q: Fate)
      requires PassReady(State(), j) && j < |sessions|
      modifies this`net, this`sessions
      ensures var s, id := old(sessions)[j].value, old(sessions)[j].value.socket;
              var a := Attend(s, old(net)[id], AskFor(q, {}), Routes(env, servers, served, generation));
              a.Attended? && net == old(net)[id := a.sock] && sessions == old(sessions)[j := Some(a.session)]
    {
      hide ChooseCharacter, Filter, Routes, Transmit;
      var s, id := sessions[j].value, sessions[j].value.socket;
      assert sessions[j := Some(s)] == sessions && net[id := net[id]] == net;
      if net[id].inbox == [] {
        return;
      }
      var m := net[id].inbox[0];
      net := net[id := net[id].(inbox := net[id].inbox[1..])];
      if m.Empty? || m.OpcodeTruncated? {
        net := net[id := net[id].(error := true)];
      } else if m.RequestCharacters? {
        ProcessCharacterRequest(j, q);
      } else if m.SelectCharacter? || m.SelectTruncated? {
        ProcessCharacterSelect(env, j, m, q);
      }
    }

    /** One turn of the loop over the sessions; `gone` tells that this session was cleared. */
    method ProcessSession(env: Env, j: nat, q: Fate) returns (gone: bool)
      requires j < |sessions| && PassReady(State(), j)
      modifies this
      ensures var v := Serve(env, old(State()), j, q); !v.Crash? && State() == v.d && gone == v.Gone?
    {
      hide Attend, Routes;
      var s := sessions[j].value;
      gone := net[s.socket].error;
      if gone {
        if s.username in index {
          index := index - {s.username};
        }
        sessions := sessions[j := None];
        dropped := dropped + [s.socket];
      } else {
        AnswerSession(env, j, q);
      }
    }

    /** `processConnected`: one pass over the sessions, then the removal of those that were cleared. */
    method ProcessConnected(env: Env, qs: seq<Fate>)
      requires PassReady(State(), 0) && |qs| >= |sessions|
      modifies this
      ensures var r := Pass(env, old(State()), |old(sessions)|, qs); State() == if r.1 then Sweep(r.0) else r.0
    {
      hide Serve, Filter;
      ghost var d, size := State(), |sessions|;
      var shouldClear, j := false, 0;
      while j < |sessions|
        invariant 0 <= j <= |sessions| == size
        invariant (State(), shouldClear) == Pass(env, d, j, qs)
      {
        ServeKeepsPassReady(env, State(), j, qs[j]);
        var gone := ProcessSession(env, j, qs[j]);
        shouldClear := shouldClear || gone;
        j := j + 1;
      }
      if shouldClear {
        sessions := Filter(IsLive, sessions);
      }
    }
  }
}
