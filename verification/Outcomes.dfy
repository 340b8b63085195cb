/** What each visit to a connection or a session does, situation by situation. */
module Outcomes {
  import opened Prelude
  import opened Domain
  import opened Handlers
  import opened LoginData

  /** The socket after `m` was sent on it with that result, and nothing else; `taken` messages were read first. */
  ghost predicate Told(k: Sock, k': Sock, m: Outbound, r: SendResult, taken: nat) {
    && taken <= |k.inbox| && k'.inbox == k.inbox[taken..]
    && k'.outbox == (if r.Sent? then k.outbox + [m] else k.outbox) && k'.error == (k.error || r.Broken?)
  }

  /** One message was read, and nothing was sent. */
  ghost predicate Untold(k: Sock, k': Sock) {
    k.inbox != [] && k'.inbox == k.inbox[1..] && k'.outbox == k.outbox && k'.error == k.error && k'.connected == k.connected
  }

  predicate InLogin(c: Connection) {
    Coherent(c) && (c.state.ChallengeSent? || c.state.LoginFailed?)
  }

  // --- Connections ---

  /** A fresh connection is sent the challenge, and is given up at once only if that breaks the socket. */
  lemma FreshOutcome(env: Env, c: Connection, k: Sock, q: Ask)
    requires c.state.Fresh?
    ensures var e := Dispatch(env, c, k, q);
            && e.next.Stay? && Told(k, e.sock, Challenge, q.send, 0) && e.sock.connected == k.connected
            && e.conn == c.(state := if k.error || q.send.Broken? then Done else ChallengeSent)
  {
    hide OnChallengeSent, OnLoginFailed, OnMapList, OnMapWaitAck;
    assert k.inbox[0..] == k.inbox;
  }

  /** Activity without bytes ends a connection, whatever it was waiting for, and nothing is sent. */
  lemma SilenceOutcome(env: Env, c: Connection, k: Sock, q: Ask)
    requires Coherent(c) && !c.state.Fresh? && !c.state.Done? && k.inbox != [] && k.inbox[0].Empty?
    ensures var e := Dispatch(env, c, k, q); e.next.Stay? && e.conn == c.(state := Done) && Untold(k, e.sock)
  {
    hide LoginAttempt, Offer;
  }

  /** So does a version mismatch in answer to the challenge. */
  lemma MismatchOutcome(env: Env, c: Connection, k: Sock, q: Ask)
    requires c.state.ChallengeSent? && k.inbox != [] && k.inbox[0].VersionMismatch?
    ensures var e := Dispatch(env, c, k, q); e.next.Stay? && e.conn == c.(state := Done) && Untold(k, e.sock)
  {
    hide LoginAttempt, Offer;
  }

  /** Data that a connection in a login state counts as a failed attempt. */
  ghost predicate Fails(env: Env, c: Connection, k: Sock, players: seq<Player>) {
    k.inbox != [] && !k.inbox[0].Empty? &&
    if k.inbox[0].Identity? then
      (forall i :: !Proves(env, k, players, i)) && (forall i :: !Locked(players, i, k.inbox[0].username))
    else c.state.LoginFailed? || (!k.inbox[0].RegistrationRequest? && !k.inbox[0].VersionMismatch?)
  }

  /** A failed attempt: one fewer remains, the peer is told how many, and after the third the connection is done. */
  lemma FailureOutcome(env: Env, c: Connection, k: Sock, q: Ask)
    requires InLogin(c) && Fails(env, c, k, q.db.players)
    ensures var e := Dispatch(env, c, k, q);
            && e.next.Stay? && Told(k, e.sock, AuthResponse(false, 2 - c.attempts), q.send, 1)
            && e.sock.connected == k.connected
            && e.conn == c.(attempts := c.attempts + 1, state := if c.attempts == 2 then Done else LoginFailed)
  {
    hide FirstPlayer, IsFirst, Offer;
    if k.inbox[0].Identity? {
      var players, u := q.db.players, k.inbox[0].username;
      FirstPlayerIs(players, u);
      FirstNamesMatch(players, u);
      if FirstPlayer(players, u).Some? {
        var i :| IsFirst(players, i, u);
        assert !Proves(env, k, players, i) && !Locked(players, i, u);
      }
    }
  }

  /** A locked account: the peer is told that nothing remains, and is disconnected. */
  lemma LockedOutcome(env: Env, c: Connection, k: Sock, q: Ask, i: int)
    requires InLogin(c) && k.inbox != [] && k.inbox[0].Identity? && Locked(q.db.players, i, k.inbox[0].username)
    ensures var e := Dispatch(env, c, k, q);
            && e.next.Stay? && e.conn == c.(state := Done)
            && Told(k, e.sock, AuthResponse(false, 0), q.send, 1) && !e.sock.connected
  {
    FirstPlayerIs(q.db.players, k.inbox[0].username);
    FirstNamesMatch(q.db.players, k.inbox[0].username);
    hide FirstPlayer, IsFirst, Offer;
  }

  /** The right password: the peer is welcomed, and its socket goes to a session of that player. */
  lemma WelcomeOutcome(env: Env, c: Connection, k: Sock, q: Ask, i: int)
    requires InLogin(c) && Proves(env, k, q.db.players, i)
    ensures var e := Dispatch(env, c, k, q);
            && 0 <= i < |q.db.players| && e.next == OpenSession(q.db.players[i].id, q.db.players[i].username)
            && Told(k, e.sock, AuthResponse(true, 3 - c.attempts), q.send, 1) && e.sock.connected == k.connected
  {
    FirstPlayerIs(q.db.players, k.inbox[0].username);
    FirstNamesMatch(q.db.players, k.inbox[0].username);
    hide FirstPlayer, IsFirst, Offer;
  }

  /** A registration request: its details are kept in any case, and the state moves on only if the response went out. */
  lemma RequestOutcome(env: Env, c: Connection, k: Sock, q: Ask)
    requires Coherent(c) && c.state.ChallengeSent? && k.inbox != [] && k.inbox[0].RegistrationRequest?
    ensures var e, m := Dispatch(env, c, k, q), k.inbox[0];
            && e.next.Stay? && Told(k, e.sock, RegistrationResponse, q.send, 1) && e.sock.connected == k.connected
            && e.conn == c.(name := Some(m.name), address := Some(m.address), port := Some(m.port),
                            state := if q.send.Sent? then MapList else ChallengeSent)
  {
    hide LoginAttempt, Offer;
  }

  /** Anything but a map list, where one is expected, ends the connection. */
  lemma NoListOutcome(env: Env, c: Connection, k: Sock, q: Ask)
    requires c.state.MapList? && k.inbox != [] && !k.inbox[0].AdvertiseMaps?
    ensures var e := Dispatch(env, c, k, q); e.next.Stay? && e.conn == c.(state := Done) && Untold(k, e.sock)
  {
    hide LoginAttempt, Offer;
  }

  /** A map list with nothing on it that is needed and unserved: the peer is told so, and the connection is done. */
  lemma NotNeededOutcome(env: Env, c: Connection, k: Sock, q: Ask)
    requires c.state.MapList? && k.inbox != [] && k.inbox[0].AdvertiseMaps?
    requires forall l :: l in k.inbox[0].maps ==> !Needed(l, env.allMaps, q.served)
    ensures var e := Dispatch(env, c, k, q);
            && e.next.Stay? && e.conn == c.(state := Done)
            && Told(k, e.sock, NotNeeded, q.send, 1) && e.sock.connected == k.connected
  {
    hide LoginAttempt, Offer, Needed, Wanted;
    OfferEmpty(k.inbox[0].maps, env.allMaps, q.served);
    forall l | l in k.inbox[0].maps
      ensures !Wanted(l, env.allMaps, q.served)
    {
      WantedIff(l, env.allMaps, q.served);
    }
  }

  /**
   * A map list with something needed: the offer holds the catalogue's rows for exactly the needed entries, in the
   * peer's order; it is stored, and the connection waits for its acknowledgement whatever became of the send.
   */
  lemma OfferOutcome(env: Env, c: Connection, k: Sock, q: Ask, l: Location)
    requires c.state.MapList? && k.inbox != [] && k.inbox[0].AdvertiseMaps?
    requires l in k.inbox[0].maps && Needed(l, env.allMaps, q.served)
    ensures var e := Dispatch(env, c, k, q);
            && e.next.Stay? && e.conn.maps.Some? && e.conn == c.(state := MapWaitAck, maps := e.conn.maps)
            && e.conn.maps.value != []
            && Told(k, e.sock, RequiredMaps(e.conn.maps.value), q.send, 1) && e.sock.connected == k.connected
            && Keys(e.conn.maps.value) == Keys(Filter(l => Needed(l, env.allMaps, q.served), k.inbox[0].maps))
            && (forall o :: o in e.conn.maps.value ==> o in env.allMaps)
  {
    hide LoginAttempt, Offer, Needed, Wanted, FirstNamed;
    OfferEmpty(k.inbox[0].maps, env.allMaps, q.served);
    OfferRows(k.inbox[0].maps, env.allMaps, q.served);
    OfferIsNeeded(k.inbox[0].maps, env.allMaps, q.served);
    WantedIff(l, env.allMaps, q.served);
  }

  /** Any bytes at all acknowledge an offer. */
  lemma AckOutcome(env: Env, c: Connection, k: Sock, q: Ask)
    requires Coherent(c) && c.state.MapWaitAck? && k.inbox != [] && !k.inbox[0].Empty?
    ensures var e := Dispatch(env, c, k, q); e.next.Enrol? && e.conn == c && Untold(k, e.sock)
  {
    hide LoginAttempt, Offer;
  }

  /** A connection whose socket broke is done at its next turn, and nothing else happens in that turn. */
  lemma BrokenOutcome(env: Env, d: Data, i: nat, q: Fate)
    requires i < |d.incoming| && !d.incoming[i].state.Done? && d.incoming[i].socket.Some?
    requires d.incoming[i].socket.value in d.net && d.net[d.incoming[i].socket.value].error
    ensures Visit(env, d, i, q) == Continue(d.(incoming := d.incoming[i := d.incoming[i].(state := Done)]))
  {
    hide Dispatch;
  }

  /**
   * The session object that a proven identity opens: at a fresh address, with the next guid, for the player and the
   * username proved, on this socket, and with no character yet.
   */
  lemma OpeningOutcome(env: Env, d: Data, i: nat, q: Fate, p: int)
    requires i < |d.incoming| && InLogin(d.incoming[i]) && d.incoming[i].socket.Some?
    requires d.incoming[i].socket.value in d.net && !d.net[d.incoming[i].socket.value].error
    requires Proves(env, d.net[d.incoming[i].socket.value], q.db.players, p)
    ensures var id, v := d.incoming[i].socket.value, Visit(env, d, i, q);
            && v.WantSession? && v.d.created == d.created + 1 && 0 <= p < |q.db.players|
            && v.s == Session(q.addr, d.created % GUIDS, q.db.players[p].id, q.db.players[p].username, id, 0)
            && i < |v.d.incoming| && v.d.incoming[i].socket.None?
            && id in v.d.net && Told(d.net[id], v.d.net[id], AuthResponse(true, 3 - d.incoming[i].attempts), q.send, 1)
  {
    var c, k := d.incoming[i], d.net[d.incoming[i].socket.value];
    WelcomeOutcome(env, c, k, Ask(q.send, q.db, d.served.Keys), p);
    hide Dispatch, Proves;
  }

  // --- Sessions ---

  /** Activity without a whole opcode marks the session's socket as failed. */
  lemma NoOpcodeOutcome(s: Session, k: Sock, q: Ask, route: nat -> Route)
    requires k.inbox != [] && (k.inbox[0].Empty? || k.inbox[0].OpcodeTruncated?)
    ensures Attend(s, k, q, route) == Attended(s, k.(inbox := k.inbox[1..], error := true))
  {
    hide ChooseCharacter, ListCharacters;
  }

  /**
   * The character list: every row of the session's player and no other, in the table's order; a send that
   * returns zero disconnects the socket and marks it as failed.
   */
  lemma ListOutcome(s: Session, k: Sock, q: Ask, route: nat -> Route) returns (rows: seq<Character>, at: seq<nat>)
    requires k.inbox != [] && k.inbox[0].RequestCharacters?
    ensures var a := Attend(s, k, q, route);
            && a.Attended? && a.session == s
            && a.sock.inbox == k.inbox[1..]
            && Selects((ch: Character) => ch.playerID == s.playerID, q.db.characters, at, rows)
            && a.sock.outbox == (if q.send.Sent? then k.outbox + [PlayerCharacters(rows)] else k.outbox)
            && a.sock.error == (k.error || IsZero(q.send))
            && a.sock.connected == (k.connected && !IsZero(q.send))
  {
    hide ChooseCharacter, Filter, Kept, Selects;
    var p := (ch: Character) => Owns(ch, s.playerID);
    FilterIsStable(p, q.db.characters);
    rows, at := Filter(p, q.db.characters), Kept(p, q.db.characters);
    SelectsSame(p, (ch: Character) => ch.playerID == s.playerID, q.db.characters, at, rows);
  }

  lemma SelectsSame<T(!new)>(p: T -> bool, r: T -> bool, s: seq<T>, at: seq<nat>, f: seq<T>)
    requires Selects(p, s, at, f) && forall x :: p(x) == r(x)
    ensures Selects(r, s, at, f)
  {
  }

  /** A selection without a whole id is answered as malformed; any other opcode is read and ignored. */
  lemma OddRequestOutcome(s: Session, k: Sock, q: Ask, route: nat -> Route)
    requires k.inbox != [] && !k.inbox[0].Empty? && !k.inbox[0].OpcodeTruncated?
    requires !k.inbox[0].RequestCharacters? && !k.inbox[0].SelectCharacter?
    ensures var a := Attend(s, k, q, route);
            && a.Attended? && a.session == s
            && (if k.inbox[0].SelectTruncated? then Told(k, a.sock, MalformedPacket, q.send, 1) else Untold(k, a.sock))
  {
    hide ChooseCharacter, ListCharacters;
  }

  /** A session whose socket broke is cleared, unindexed, and its socket destroyed. */
  lemma BrokenSessionOutcome(env: Env, d: Data, j: nat, q: Fate)
    requires j < |d.sessions| && d.sessions[j].Some? && d.sessions[j].value.socket in d.net
    requires d.net[d.sessions[j].value.socket].error
    ensures Serve(env, d, j, q).Gone?
    ensures var s, t := d.sessions[j].value, Serve(env, d, j, q).d;
            && t.sessions == d.sessions[j := None] && t.dropped == d.dropped + [s.socket] && t.net == d.net
            && s.username !in t.index && (forall u :: u in d.index && u != s.username ==> u in t.index && t.index[u] == d.index[u])
  {
    hide Attend;
  }
}
