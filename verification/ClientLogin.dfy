/** A game client and the login server, joined by one socket: login, character list, character selection. */
module ClientLogin {
  import opened Prelude
  import opened HexCodec
  import opened Domain
  import opened Handlers

  /**
   * Where the client is: waiting for the challenge, idle in LOGIN, waiting for a login response, idle in
   * CHARACTER_SELECT, waiting for the character list, MAP_SERVER_CONNECT, PLAYING, or disconnected.
   */
  datatype Phase = AwaitChallenge | AtLogin | AwaitAuth | AtSelect | AwaitList | AwaitRoute | Playing | HungUp

  /** `seen` counts the server's messages read from this socket; `hasKey`: some challenge brought a public key. */
  datatype Client = Client(phase: Phase, username: string, current: Option<Character>, seen: nat, hasKey: bool)

  /** Who holds the server's end of the socket. */
  datatype Side = AsConnection(c: Connection) | AsSession(s: Session)

  /** `said` is the history of what the client put on the socket. */
  datatype Duo = Duo(client: Client, side: Side, k: Sock, said: seq<Inbound>)

  datatype MenuKey = SpaceKey | OneKey | ReturnKey

  /** The steps: a server visit, the client reading a message, a key press that its game state heeds. */
  datatype Event =
    | ServerVisit(q: Ask, addr: nat, guid: nat, route: nat -> Route)
    | ClientReads(sameVersion: bool, encrypted: seq<byte>)
    | Press(key: MenuKey, password: seq<byte>)

  datatype Result = Off | Next(d: Duo)

  function Calling(cl: Client): Client {
    cl.(phase := AwaitChallenge, seen := 0)
  }

  /** The socket has just been connected. */
  function Dialled(cl: Client, id: SockId): Duo {
    Duo(Calling(cl), AsConnection(NewConnection(id)), NEW_SOCK, [])
  }

  function ServerStep(env: Env, d: Duo, e: Event): Result
    requires e.ServerVisit?
  {
    if d.side.AsConnection? then
      var f := Dispatch(env, d.side.c, d.k, e.q);
      if f.next.Stay? then Next(d.(side := AsConnection(f.conn), k := f.sock))
      else if f.next.OpenSession? && f.conn.socket.Some? then
        var s := Session(e.addr, e.guid, f.next.playerID, f.next.username, f.conn.socket.value, 0);
        Next(d.(side := AsSession(s), k := f.sock))
      else Off
    else
      match Attend(d.side.s, d.k, e.q, e.route)
      case ReadDangling => Off
      case Attended(s, k) => Next(d.(side := AsSession(s), k := k))
  }

  /** A character as the list packet carries it: the location is not among the fields sent. */
  function Listed(ch: Character): Character {
    ch.(locationID := 0)
  }

  /** The client after one event of its own, and what it puts on the socket. */
  datatype Reaction = Reaction(client: Client, said: seq<Inbound>)

  /** What the client makes of the next message, in the phase it is in. */
  function React(cl: Client, m: Outbound, sameVersion: bool, encrypted: seq<byte>): Reaction {
    var next := cl.(seen := cl.seen + 1);
    if cl.phase.AwaitChallenge? then
      if !m.Challenge? then Reaction(next.(phase := AtLogin), [])
      else if sameVersion then Reaction(next.(phase := AwaitAuth, hasKey := true), [Identity(cl.username, encrypted)])
      else Reaction(next.(phase := AtLogin, hasKey := true), [VersionMismatch])
    else if cl.phase.AwaitAuth? then
      if !m.AuthResponse? then Reaction(next.(phase := AtLogin), [])
      else if m.successful then Reaction(next.(phase := AtSelect), [])
      else Reaction(next.(phase := if m.remaining == 0 then HungUp else AtLogin), [])
    else if cl.phase.AwaitList? then
      if !m.PlayerCharacters? || m.rows == [] then Reaction(next.(phase := AtSelect), [])
      else
        Reaction(next.(phase := AwaitRoute, current := Some(Listed(m.rows[0]))), [SelectCharacter(m.rows[0].id)])
    else if cl.phase.AwaitRoute? then Reaction(next.(phase := if m.Instructions? then Playing else AtSelect), [])
    else Reaction(next, [])
  }

  const SUPER_USER := "SgtCoDFish@example.com"

  predicate Heeds(cl: Client, key: MenuKey) {
    match key
    case SpaceKey => cl.phase.AtLogin? && cl.hasKey
    case OneKey => cl.phase.AtLogin? || cl.phase.HungUp?
    case ReturnKey => cl.phase.AtSelect?
  }

  function Pressed(cl: Client, key: MenuKey, encrypted: seq<byte>): Reaction {
    match key
    case SpaceKey => Reaction(cl.(phase := AwaitAuth), [Identity(cl.username, encrypted)])
    case OneKey => Reaction(cl.(username := SUPER_USER), [])
    case ReturnKey => Reaction(cl.(phase := AwaitList), [RequestCharacters])
  }

  function Apply(d: Duo, r: Reaction): Duo {
    d.(client := r.client, k := if r.said == [] then d.k else d.k.(inbox := d.k.inbox + r.said), said := d.said + r.said)
  }

  function ClientReadStep(d: Duo, e: Event): Duo
    requires e.ClientReads? && d.client.seen < |d.k.outbox|
  {
    Apply(d, React(d.client, d.k.outbox[d.client.seen], e.sameVersion, e.encrypted))
  }

  /** One step; the sends succeed and the character table is fixed, as the theorem supposes. */
  function Step(env: Env, rows: seq<Character>, d: Duo, e: Event): Result {
    if e.ServerVisit? then
      if e.q.send.Sent? && e.q.db.characters == rows then ServerStep(env, d, e) else Off
    else if e.ClientReads? then
      if d.client.seen < |d.k.outbox| then Next(ClientReadStep(d, e)) else Off
    else if Heeds(d.client, e.key) then Next(Apply(d, Pressed(d.client, e.key, e.password)))
    else Off
  }

  ghost predicate IsRun(env: Env, rows: seq<Character>, t: seq<Duo>, es: seq<Event>, id: SockId) {
    && |t| == |es| + 1 && t[0] == Dialled(t[0].client, id)
    && forall k :: 0 <= k < |es| ==> Step(env, rows, t[k], es[k]) == Next(t[k + 1])
  }

  // --- The joint invariant ---

  /** Nothing is on its way to the client except these messages. */
  ghost predicate Unseen(d: Duo, ms: seq<Outbound>) {
    d.client.seen <= |d.k.outbox| && d.k.outbox[d.client.seen..] == ms
  }

  /** Nothing is on its way in either direction. */
  ghost predicate Quiet(d: Duo) {
    d.k.inbox == [] && Unseen(d, [])
  }

  /** The server will never answer: it closed the connection, or will at the version mismatch it has yet to read. */
  ghost predicate Doomed(d: Duo) {
    && d.side.AsConnection? && Unseen(d, [])
    && (d.side.c.state.Done?
        || (d.side.c.state.ChallengeSent? && d.k.inbox != [] && d.k.inbox[0].VersionMismatch?))
  }

  predicate Asking(d: Duo) {
    d.side.AsConnection? && (d.side.c.state.ChallengeSent? || d.side.c.state.LoginFailed?)
  }

  predicate Mine(d: Duo) {
    d.side.AsSession? && d.side.s.username == d.client.username
  }

  /** The current character is a row that belongs to the session's player. */
  predicate Chosen(rows: seq<Character>, d: Duo) {
    && d.side.AsSession? && d.client.current.Some? && d.client.current.value.playerID == d.side.s.playerID
    && exists ch :: ch in rows && Listed(ch) == d.client.current.value
  }

  ghost predicate LoginOk(d: Duo) {
    match d.client.phase
    case AwaitChallenge =>
      d.side.AsConnection? && d.k.inbox == [] &&
      ((d.side.c.state.Fresh? && Unseen(d, [])) || (d.side.c.state.ChallengeSent? && Unseen(d, [Challenge])))
    case AtLogin => d.client.hasKey && (Doomed(d) || (Asking(d) && Quiet(d)))
    case AwaitAuth =>
      d.client.hasKey &&
      (|| Doomed(d)
       || (Asking(d) && Unseen(d, []) && |d.k.inbox| == 1 && d.k.inbox[0].Identity?
           && d.k.inbox[0].username == d.client.username)
       || (Mine(d) && d.k.inbox == [] && exists n :: Unseen(d, [AuthResponse(true, n)]))
       || (d.side.AsConnection? && d.k.inbox == [] && exists n ::
             Unseen(d, [AuthResponse(false, n)])
             && if n == 0 then d.side.c.state.Done? else d.side.c.state.LoginFailed?))
    case HungUp => d.side.AsConnection? && d.side.c.state.Done?
    case _ => true
  }

  ghost predicate SelectOk(rows: seq<Character>, d: Duo) {
    match d.client.phase
    case AtSelect => Mine(d) && Quiet(d)
    case AwaitList =>
      Mine(d) &&
      ((d.k.inbox == [RequestCharacters] && Unseen(d, []))
       || (d.k.inbox == [] &&
           Unseen(d, [PlayerCharacters(Filter((ch: Character) => Owns(ch, d.side.s.playerID), rows))])))
    case AwaitRoute =>
      Mine(d) && Chosen(rows, d) &&
      ((d.k.inbox == [Inbound.SelectCharacter(d.client.current.value.id)] && Unseen(d, []))
       || (d.k.inbox == [] && Unseen(d, [NoMapServer]))
       || (d.k.inbox == [] && d.side.s.characterID == d.client.current.value.id
           && exists f, h, p :: Unseen(d, [Instructions(f, h, p)])))
    case Playing => Mine(d) && Chosen(rows, d) && d.side.s.characterID == d.client.current.value.id && Quiet(d)
    case _ => true
  }

  ghost predicate Joint(rows: seq<Character>, d: Duo) {
    && !d.k.error && LoginOk(d) && SelectOk(rows, d)
    && (d.side.AsConnection? ==> Coherent(d.side.c) && d.side.c.socket.Some?)
  }

  // --- Server visits ---

  /** A message on its way is answered by exactly what the handler transmits. */
  lemma Answered(d: Duo, m: Outbound, k': Sock)
    requires Unseen(d, []) && k'.outbox == d.k.outbox + [m]
    ensures Unseen(d.(k := k'), [m])
  {
    assert d.client.seen == |d.k.outbox|;
  }

  lemma NothingToRead(env: Env, c: Connection, k: Sock, q: Ask)
    requires c.state.Done? || (!c.state.Fresh? && k.inbox == [])
    ensures Dispatch(env, c, k, q) == Effect(c, k, Stay)
  {
    hide OnChallengeSent, OnLoginFailed, OnMapList;
  }

  lemma FreshAnswer(env: Env, c: Connection, k: Sock, q: Ask)
    requires c.state.Fresh? && q.send.Sent? && !k.error
    ensures Dispatch(env, c, k, q) == Effect(c.(state := ChallengeSent), k.(outbox := k.outbox + [Challenge]), Stay)
  {
    hide OnChallengeSent, OnLoginFailed, OnMapList;
  }

  lemma MismatchAnswer(env: Env, c: Connection, k: Sock, q: Ask)
    requires c.state.ChallengeSent? && k.inbox != [] && k.inbox[0].VersionMismatch?
    ensures var f := Dispatch(env, c, k, q);
            f.next.Stay? && f.conn == c.(state := Done) && f.sock == k.(inbox := k.inbox[1..], read := k.read + 1)
  {
    hide LoginAttempt, OnMapList;
  }

  /** The server's answer to a login message: a session of that username, or a refusal. */
  lemma IdentityAnswer(env: Env, c: Connection, k: Sock, q: Ask)
    requires (c.state.ChallengeSent? || c.state.LoginFailed?) && Coherent(c) && c.socket.Some?
    requires k.inbox != [] && k.inbox[0].Identity? && q.send.Sent? && !k.error
    ensures var f := Dispatch(env, c, k, q);
            && f.sock.inbox == k.inbox[1..] && !f.sock.error && f.conn.socket == c.socket && Coherent(f.conn)
            && (|| (f.next.OpenSession? && f.next.username == k.inbox[0].username
                    && exists n :: f.sock.outbox == k.outbox + [AuthResponse(true, n)])
                || (f.next.Stay? && exists n ::
                      && f.sock.outbox == k.outbox + [AuthResponse(false, n)]
                      && if n == 0 then f.conn.state.Done? else f.conn.state.LoginFailed?))
  {
    hide FirstPlayer, OnMapList;
    var m, k' := k.inbox[0], Receive(k).(read := k.read + 1);
    var f := Dispatch(env, c, k, q);
    assert f == Exhaust(LoginAttempt(env, c, k', m, q));
    match FirstPlayer(q.db.players, m.username)
    case None => assert f.sock.outbox == k.outbox + [AuthResponse(false, MAX_ATTEMPTS - (c.attempts + 1))];
    case Some(p) =>
      if p.locked {
        assert f.sock.outbox == k.outbox + [AuthResponse(false, 0)];
      } else if env.accepts(p.stored, m.encrypted) {
        assert f.sock.outbox == k.outbox + [AuthResponse(true, MAX_ATTEMPTS - c.attempts)];
      } else {
        assert f.sock.outbox == k.outbox + [AuthResponse(false, MAX_ATTEMPTS - (c.attempts + 1))];
      }
  }

  lemma ConnectionVisit(env: Env, rows: seq<Character>, d: Duo, e: Event)
    requires e.ServerVisit? && e.q.send.Sent? && d.side.AsConnection? && Joint(rows, d)
    ensures ServerStep(env, d, e).Next? && Joint(rows, ServerStep(env, d, e).d)
  {
    hide Dispatch;
    var c, k, q := d.side.c, d.k, e.q;
    var f := Dispatch(env, c, k, q);
    if c.state.Done? || (!c.state.Fresh? && k.inbox == []) {
      NothingToRead(env, c, k, q);
    } else if c.state.Fresh? {
      FreshAnswer(env, c, k, q);
      Answered(d, Challenge, f.sock);
    } else if k.inbox[0].VersionMismatch? {
      MismatchAnswer(env, c, k, q);
    } else {
      IdentityAnswer(env, c, k, q);
      if f.next.OpenSession? {
        var n :| f.sock.outbox == k.outbox + [AuthResponse(true, n)];
        Answered(d, AuthResponse(true, n), f.sock);
      } else {
        var n :| f.sock.outbox == k.outbox + [AuthResponse(false, n)]
                 && if n == 0 then f.conn.state.Done? else f.conn.state.LoginFailed?;
        Answered(d, AuthResponse(false, n), f.sock);
      }
    }
  }

  lemma SelectAnswer(s: Session, k: Sock, q: Ask, route: nat -> Route, ch: Character)
    requires UniqueIds(q.db.characters) && ch in q.db.characters && ch.playerID == s.playerID
    requires k.inbox == [Inbound.SelectCharacter(ch.id)] && q.send.Sent? && Attend(s, k, q, route).Attended?
    ensures var a := Attend(s, k, q, route);
            && a.sock.inbox == [] && a.sock.error == k.error && a.session == s.(characterID := a.session.characterID)
            && (|| a.sock.outbox == k.outbox + [NoMapServer]
                || (a.session.characterID == ch.id && exists f, h, p :: a.sock.outbox == k.outbox + [Instructions(f, h, p)]))
  {
    OnlyRow(q.db.characters, s.playerID, ch);
    hide Filter;
    var own := Filter((r: Character) => Owns(r, s.playerID) && r.id == ch.id, q.db.characters);
    var r := route(own[0].locationID);
    if r.To? {
      assert Attend(s, k, q, route).sock.outbox == k.outbox + [Instructions(r.friendlyName, r.host, r.port)];
    }
  }

  lemma SessionVisit(env: Env, rows: seq<Character>, d: Duo, e: Event)
    requires e.ServerVisit? && e.q.send.Sent? && e.q.db.characters == rows && UniqueIds(rows)
    requires d.side.AsSession? && Joint(rows, d) && ServerStep(env, d, e).Next?
    ensures Joint(rows, ServerStep(env, d, e).d)
  {
    hide ChooseCharacter, Filter, UniqueIds;
    var s, k := d.side.s, d.k;
    var t := ServerStep(env, d, e).d;
    if k.inbox == [] {
      assert t == d;
    } else if k.inbox[0].RequestCharacters? {
      Answered(d, PlayerCharacters(Filter((ch: Character) => Owns(ch, s.playerID), rows)), t.k);
    } else {
      var ch :| ch in rows && Listed(ch) == d.client.current.value;
      SelectAnswer(s, k, e.q, e.route, ch);
      var a := Attend(s, k, e.q, e.route);
      hide Attend;
      if a.sock.outbox == k.outbox + [NoMapServer] {
        Answered(d, NoMapServer, t.k);
      } else {
        var f, h, p :| a.sock.outbox == k.outbox + [Instructions(f, h, p)];
        Answered(d, Instructions(f, h, p), t.k);
      }
      assert Chosen(rows, t);
    }
  }

  // --- Client steps ---

  lemma ReadAll(d: Duo, m: Outbound)
    requires Unseen(d, [m])
    ensures d.client.seen < |d.k.outbox| && d.k.outbox[d.client.seen] == m
    ensures Unseen(d.(client := d.client.(seen := d.client.seen + 1)), [])
  {
    assert d.k.outbox[d.client.seen..][0] == m;
  }

  lemma ReadKeeps(rows: seq<Character>, d: Duo, e: Event)
    requires e.ClientReads? && d.client.seen < |d.k.outbox| && Joint(rows, d)
    ensures Joint(rows, ClientReadStep(d, e))
  {
    hide Coherent, Filter;
    var m := d.k.outbox[d.client.seen];
    assert d.k.outbox[d.client.seen..] != [];
    if Unseen(d, [m]) {
      ReadAll(d, m);
    }
    if d.client.phase.AwaitList? && m.PlayerCharacters? && m.rows != [] {
      InFilter((ch: Character) => Owns(ch, d.side.s.playerID), rows);
      assert m.rows[0] in m.rows;
    }
  }

  lemma StepKeeps(env: Env, rows: seq<Character>, d: Duo, e: Event)
    requires UniqueIds(rows) && Joint(rows, d) && Step(env, rows, d, e).Next?
    ensures Joint(rows, Step(env, rows, d, e).d)
  {
    hide ServerStep, ClientReadStep, Filter, UniqueIds, Coherent;
    if e.ServerVisit? {
      hide Joint;
      if d.side.AsConnection? {
        ConnectionVisit(env, rows, d, e);
      } else {
        SessionVisit(env, rows, d, e);
      }
    } else if e.ClientReads? {
      ReadKeeps(rows, d, e);
    } else {
      assert forall m: Inbound :: [] + [m] == [m];
    }
  }

  lemma {:induction false} RunOk(env: Env, rows: seq<Character>, t: seq<Duo>, es: seq<Event>, id: SockId, k: nat)
    requires IsRun(env, rows, t, es, id) && UniqueIds(rows) && k < |t|
    ensures Joint(rows, t[k])
  {
    hide Step, UniqueIds;
    if k > 0 {
      hide Joint;
      RunOk(env, rows, t, es, id, k - 1);
      assert Step(env, rows, t[k - 1], es[k - 1]) == Next(t[k]);
      StepKeeps(env, rows, t[k - 1], es[k - 1]);
    }
  }

  lemma JointPlayingAgrees(rows: seq<Character>, d: Duo)
    requires Joint(rows, d) && d.client.phase.Playing?
    ensures d.side.AsSession? && d.side.s.username == d.client.username && d.client.current.Some?
    ensures d.side.s.characterID == d.client.current.value.id
    ensures exists ch :: ch in rows && ch.id == d.side.s.characterID && ch.playerID == d.side.s.playerID
  {
    var ch :| ch in rows && Listed(ch) == d.client.current.value;
  }

  /**
   * A client that is playing has a session on the server under its own username; that session records the
   * client's current character, which is a row of the table owned by the session's player.
   */
  lemma PlayingAgrees(env: Env, rows: seq<Character>, t: seq<Duo>, es: seq<Event>, id: SockId, k: nat)
    requires IsRun(env, rows, t, es, id) && UniqueIds(rows) && k < |t| && t[k].client.phase.Playing?
    ensures t[k].side.AsSession? && t[k].side.s.username == t[k].client.username && t[k].client.current.Some?
    ensures t[k].side.s.characterID == t[k].client.current.value.id
    ensures exists ch :: ch in rows && ch.id == t[k].side.s.characterID && ch.playerID == t[k].side.s.playerID
  {
    hide IsRun, Joint;
    RunOk(env, rows, t, es, id, k);
    JointPlayingAgrees(rows, t[k]);
  }

  /** A client that hung up was given up by the server as well. */
  lemma HangUpAgrees(env: Env, rows: seq<Character>, t: seq<Duo>, es: seq<Event>, id: SockId, k: nat)
    requires IsRun(env, rows, t, es, id) && UniqueIds(rows) && k < |t| && t[k].client.phase.HungUp?
    ensures t[k].side.AsConnection? && t[k].side.c.state.Done?
  {
    hide IsRun;
    RunOk(env, rows, t, es, id, k);
  }

  // --- Runs that reach a state ---

  /** Some joint run on this socket passes through this state. */
  ghost predicate ReachableDuo(env: Env, rows: seq<Character>, id: SockId, d: Duo) {
    exists t: seq<Duo>, es :: IsRun(env, rows, t, es, id) && t[|es|] == d
  }

  lemma DialledReachable(env: Env, rows: seq<Character>, id: SockId, cl: Client)
    ensures ReachableDuo(env, rows, id, Dialled(cl, id))
  {
    assert IsRun(env, rows, [Dialled(cl, id)], [], id);
  }

  lemma Extend(env: Env, rows: seq<Character>, id: SockId, d: Duo, e: Event, d': Duo)
    requires ReachableDuo(env, rows, id, d) && Step(env, rows, d, e) == Next(d')
    ensures ReachableDuo(env, rows, id, d')
  {
    hide Step;
    var t: seq<Duo>, es :| IsRun(env, rows, t, es, id) && t[|es|] == d;
    var t', es' := t + [d'], es + [e];
    assert IsRun(env, rows, t', es', id) && t'[|es'|] == d';
  }

  lemma ReachableIsJoint(env: Env, rows: seq<Character>, id: SockId, d: Duo)
    requires ReachableDuo(env, rows, id, d) && UniqueIds(rows)
    ensures Joint(rows, d)
  {
    hide Step, Joint;
    var t: seq<Duo>, es :| IsRun(env, rows, t, es, id) && t[|es|] == d;
    RunOk(env, rows, t, es, id, |es|);
  }
}
