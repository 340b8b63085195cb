/** What a client achieves once both ends take their turns: the counterpart of the agreement theorems. */
module ClientProgress {
  import opened Prelude
  import opened HexCodec
  import opened Domain
  import opened Handlers
  import opened ClientLogin
  import LoginData
  import Routing

  /** The state after these steps, one after the other. */
  function After(env: Env, rows: seq<Character>, d: Duo, es: seq<Event>): Result
    decreases |es|
  {
    if es == [] then Next(d)
    else
      var r := Step(env, rows, d, es[0]);
      if r.Off? then Off else After(env, rows, r.d, es[1..])
  }

  lemma AfterOne(env: Env, rows: seq<Character>, d: Duo, e: Event, d': Duo, es: seq<Event>)
    requires Step(env, rows, d, e) == Next(d')
    ensures After(env, rows, d, [e] + es) == After(env, rows, d', es)
  {
    hide Step;
    assert ([e] + es)[1..] == es;
  }

  lemma AfterThree(env: Env, rows: seq<Character>, d: Duo, e1: Event, d1: Duo, e2: Event, d2: Duo, e3: Event, d3: Duo)
    requires Step(env, rows, d, e1) == Next(d1) && Step(env, rows, d1, e2) == Next(d2) && Step(env, rows, d2, e3) == Next(d3)
    ensures After(env, rows, d, [e1, e2, e3]) == Next(d3)
  {
    hide Step;
    AfterOne(env, rows, d, e1, d1, [e2, e3]);
    AfterOne(env, rows, d1, e2, d2, [e3]);
    AfterOne(env, rows, d2, e3, d3, []);
    assert [e1] + [e2, e3] == [e1, e2, e3] && [e2] + [e3] == [e2, e3] && [e3] + [] == [e3];
  }

  lemma {:induction false} AfterBoth(env: Env, rows: seq<Character>, d: Duo, es: seq<Event>, d': Duo, fs: seq<Event>)
    requires After(env, rows, d, es) == Next(d')
    ensures After(env, rows, d, es + fs) == After(env, rows, d', fs)
    decreases |es|
  {
    hide Step;
    if es == [] {
      assert es + fs == fs;
    } else {
      AfterBoth(env, rows, Step(env, rows, d, es[0]).d, es[1..], d', fs);
      assert (es + fs)[1..] == es[1..] + fs;
    }
  }

  /** A visit by the server in which the send succeeds and the table is `rows`. */
  predicate IsVisit(e: Event, rows: seq<Character>) {
    e.ServerVisit? && e.q.send.Sent? && e.q.db.characters == rows
  }

  // --- Login ---

  /** The first row of that username accepts the password, and the account is not locked. */
  ghost predicate LetsIn(env: Env, players: seq<Player>, username: string, password: seq<byte>) {
    exists i :: IsFirst(players, i, username) && !players[i].locked && env.accepts(players[i].stored, password)
  }

  lemma ProvesIff(env: Env, k: Sock, players: seq<Player>, username: string, password: seq<byte>)
    requires k.inbox != [] && k.inbox[0] == Identity(username, password)
    ensures (exists i :: Proves(env, k, players, i)) <==> LetsIn(env, players, username, password)
  {
    hide IsFirst;
    FirstNamesMatch(players, username);
    if LetsIn(env, players, username, password) {
      var i :| IsFirst(players, i, username) && !players[i].locked && env.accepts(players[i].stored, password);
      assert Proves(env, k, players, i);
    }
  }

  /** The server can be asked: the client idles at its login screen, and the server waits for an identity. */
  ghost predicate CanAsk(d: Duo) {
    d.client.phase.AtLogin? && d.client.hasKey && Asking(d) && Quiet(d)
  }

  lemma AskedVisit(env: Env, rows: seq<Character>, d: Duo, e: Event, password: seq<byte>)
    requires Joint(rows, d) && IsVisit(e, rows) && d.side.AsConnection? && Asking(d) && Unseen(d, [])
    requires d.k.inbox == [Identity(d.client.username, password)]
    ensures ServerStep(env, d, e).Next?
    ensures var d', u := ServerStep(env, d, e).d, d.client.username;
            && d'.client == d.client && d'.k.inbox == []
            && exists n :: Unseen(d', [AuthResponse(LetsIn(env, e.q.db.players, u, password), n)])
                 && (d'.side.AsSession? <==> LetsIn(env, e.q.db.players, u, password))
  {
    hide Joint, LetsIn, Unseen, Coherent;
    JointKnows(rows, d);
    IdentityAnswer(env, d.side.c, d.k, e.q);
    SessionOpensIff(env, d.side.c, d.k, e.q);
    ProvesIff(env, d.k, e.q.db.players, d.client.username, password);
    hide Dispatch;
    var f := Dispatch(env, d.side.c, d.k, e.q);
    if f.next.OpenSession? {
      var n :| f.sock.outbox == d.k.outbox + [AuthResponse(true, n)];
      Answered(d, AuthResponse(true, n), f.sock);
      SameUnseen(d.(k := f.sock), ServerStep(env, d, e).d, [AuthResponse(true, n)]);
    } else {
      var n :| f.sock.outbox == d.k.outbox + [AuthResponse(false, n)];
      Answered(d, AuthResponse(false, n), f.sock);
      SameUnseen(d.(k := f.sock), ServerStep(env, d, e).d, [AuthResponse(false, n)]);
    }
  }

  lemma JointKnows(rows: seq<Character>, d: Duo)
    requires Joint(rows, d) && d.side.AsConnection?
    ensures Coherent(d.side.c) && d.side.c.socket.Some? && !d.k.error
  {
  }

  lemma SameUnseen(d: Duo, d': Duo, ms: seq<Outbound>)
    requires d'.client == d.client && d'.k.outbox == d.k.outbox && Unseen(d, ms)
    ensures Unseen(d', ms)
  {
  }

  lemma PressAsks(env: Env, rows: seq<Character>, d: Duo, password: seq<byte>)
    requires UniqueIds(rows) && Joint(rows, d) && CanAsk(d)
    ensures var d1 := Apply(d, Pressed(d.client, SpaceKey, password));
            && Step(env, rows, d, Press(SpaceKey, password)) == Next(d1) && Joint(rows, d1)
            && d1.client == d.client.(phase := AwaitAuth) && Asking(d1) && Unseen(d1, [])
            && d1.k.inbox == [Identity(d.client.username, password)]
  {
    hide Joint, UniqueIds, Coherent;
    assert [] + [Identity(d.client.username, password)] == [Identity(d.client.username, password)];
    StepKeeps(env, rows, d, Press(SpaceKey, password));
  }

  lemma ReadAnswer(env: Env, rows: seq<Character>, d: Duo, n: int, ok: bool, sameVersion: bool, password: seq<byte>)
    requires UniqueIds(rows) && Joint(rows, d) && d.client.phase.AwaitAuth? && Unseen(d, [AuthResponse(ok, n)])
    ensures d.client.seen < |d.k.outbox|
    ensures var read := ClientReads(sameVersion, password);
            && Step(env, rows, d, read) == Next(ClientReadStep(d, read)) && Joint(rows, ClientReadStep(d, read))
            && ClientReadStep(d, read).client.phase == (if ok then AtSelect else if n == 0 then HungUp else AtLogin)
            && ClientReadStep(d, read).client.username == d.client.username
  {
    ReadAll(d, AuthResponse(ok, n));
    hide Joint, UniqueIds;
    StepKeeps(env, rows, d, ClientReads(sameVersion, password));
  }

  /**
   * A press of the space bar, one visit by the server and one read lead to CHARACTER_SELECT, with a session on
   * the server, exactly when the password is right and the account not locked; otherwise back to the login
   * screen, or to a hang-up.
   */
  lemma LoginSucceedsIff(env: Env, rows: seq<Character>, d: Duo, password: seq<byte>, e: Event, sameVersion: bool)
    requires UniqueIds(rows) && Joint(rows, d) && CanAsk(d) && IsVisit(e, rows)
    ensures var r := After(env, rows, d, [Press(SpaceKey, password), e, ClientReads(sameVersion, password)]);
            && r.Next? && Joint(rows, r.d)
            && (if LetsIn(env, e.q.db.players, d.client.username, password) then
                  r.d.client.phase.AtSelect? && r.d.side.AsSession? && r.d.side.s.username == d.client.username
                else r.d.client.phase.AtLogin? || r.d.client.phase.HungUp?)
  {
    var press, read := Press(SpaceKey, password), ClientReads(sameVersion, password);
    var d1 := Apply(d, Pressed(d.client, SpaceKey, password));
    var ok := LetsIn(env, e.q.db.players, d.client.username, password);
    PressAsks(env, rows, d, password);
    hide ServerStep, Joint, LetsIn, Apply, Pressed, CanAsk, UniqueIds, React;
    AskedVisit(env, rows, d1, e, password);
    var d2 := ServerStep(env, d1, e).d;
    StepKeeps(env, rows, d1, e);
    var n :| Unseen(d2, [AuthResponse(ok, n)]);
    ReadAnswer(env, rows, d2, n, ok, sameVersion, password);
    AfterThree(env, rows, d, press, d1, e, d2, read, ClientReadStep(d2, read));
    if ok {
      Settled(rows, ClientReadStep(d2, read));
    }
  }

  lemma Settled(rows: seq<Character>, d: Duo)
    requires Joint(rows, d) && d.client.phase.AtSelect?
    ensures d.side.AsSession? && d.side.s.username == d.client.username && Quiet(d)
  {
  }

  // --- The first login ---

  /**
   * On a new socket: the server challenges, the client identifies itself, the server decides, the client reads.
   * It is at CHARACTER_SELECT exactly when its password is right and its account not locked.
   */
  lemma FirstLoginSucceedsIff(env: Env, rows: seq<Character>, cl: Client, id: SockId, password: seq<byte>, e0: Event, e1: Event)
    requires UniqueIds(rows) && IsVisit(e0, rows) && IsVisit(e1, rows)
    ensures var read := ClientReads(true, password);
            var r := After(env, rows, Dialled(cl, id), [e0, read, e1, read]);
            && r.Next? && Joint(rows, r.d)
            && (if LetsIn(env, e1.q.db.players, cl.username, password) then
                  r.d.client.phase.AtSelect? && r.d.side.AsSession? && r.d.side.s.username == cl.username
                else r.d.client.phase.AtLogin? || r.d.client.phase.HungUp?)
  {
    var read := ClientReads(true, password);
    var d2 := Greeted(env, rows, cl, id, password, e0);
    hide ServerStep, Joint, LetsIn, UniqueIds, React, Dialled;
    AskedVisit(env, rows, d2, e1, password);
    var d3 := ServerStep(env, d2, e1).d;
    StepKeeps(env, rows, d2, e1);
    var ok := LetsIn(env, e1.q.db.players, cl.username, password);
    var n :| Unseen(d3, [AuthResponse(ok, n)]);
    ReadAnswer(env, rows, d3, n, ok, true, password);
    var d4 := ClientReadStep(d3, read);
    AfterBoth(env, rows, Dialled(cl, id), [e0, read], d2, [e1, read]);
    AfterOne(env, rows, d2, e1, d3, [read]);
    AfterOne(env, rows, d3, read, d4, []);
    assert [e0, read] + [e1, read] == [e0, read, e1, read] && [e1] + [read] == [e1, read] && [read] + [] == [read];
    if ok {
      Settled(rows, d4);
    }
  }

  /** Challenged and identified. */
  lemma Greeted(env: Env, rows: seq<Character>, cl: Client, id: SockId, password: seq<byte>, e: Event) returns (d: Duo)
    requires UniqueIds(rows) && IsVisit(e, rows)
    ensures After(env, rows, Dialled(cl, id), [e, ClientReads(true, password)]) == Next(d) && Joint(rows, d)
    ensures d.client.phase.AwaitAuth? && d.client.username == cl.username && d.side.AsConnection? && Asking(d)
    ensures Unseen(d, []) && d.k.inbox == [Identity(cl.username, password)]
  {
    var d0, read := Dialled(cl, id), ClientReads(true, password);
    DialledIsJoint(rows, cl, id);
    FreshAnswer(env, d0.side.c, d0.k, e.q);
    Answered(d0, Challenge, d0.k.(outbox := [] + [Challenge]));
    var d1 := ServerStep(env, d0, e).d;
    ReadAll(d1, Challenge);
    StepKeeps(env, rows, d0, e);
    d := ClientReadStep(d1, read);
    StepKeeps(env, rows, d1, read);
    assert [] + [Identity(cl.username, password)] == [Identity(cl.username, password)];
    hide Dispatch, Joint, React;
    AfterOne(env, rows, d0, e, d1, [read]);
    AfterOne(env, rows, d1, read, d, []);
    assert [e] + [read] == [e, read] && [read] + [] == [read];
  }

  lemma DialledIsJoint(rows: seq<Character>, cl: Client, id: SockId)
    ensures Joint(rows, Dialled(cl, id))
  {
    assert Unseen(Dialled(cl, id), []);
  }

  // --- Character selection ---

  /** The first row of the table that the player owns. */
  predicate FirstOwned(rows: seq<Character>, playerID: nat, i: nat) {
    i < |rows| && rows[i].playerID == playerID && forall j :: 0 <= j < i ==> rows[j].playerID != playerID
  }

  lemma ListStartsWith(rows: seq<Character>, playerID: nat, i: nat)
    requires FirstOwned(rows, playerID, i)
    ensures var own := Filter((ch: Character) => Owns(ch, playerID), rows); own != [] && own[0] == rows[i]
  {
    var p := (ch: Character) => Owns(ch, playerID);
    FilterIsStable(p, rows);
    var at := Kept(p, rows);
    assert i in at;
    assert at[0] in at && p(rows[at[0]]);
    var n :| 0 <= n < |at| && at[n] == i;
    assert at[0] <= at[n];
  }

  lemma ListVisit(env: Env, rows: seq<Character>, d: Duo, e: Event)
    requires IsVisit(e, rows) && d.side.AsSession? && d.k.inbox == [RequestCharacters] && Unseen(d, [])
    ensures var own := Filter((ch: Character) => Owns(ch, d.side.s.playerID), rows);
            var d' := d.(k := d.k.(inbox := [], outbox := d.k.outbox + [PlayerCharacters(own)]));
            Step(env, rows, d, e) == Next(d') && Unseen(d', [PlayerCharacters(own)])
  {
    hide Filter;
    var own := Filter((ch: Character) => Owns(ch, d.side.s.playerID), rows);
    assert d.k.inbox[1..] == [];
    Answered(d, PlayerCharacters(own), d.k.(inbox := [], outbox := d.k.outbox + [PlayerCharacters(own)]));
  }

  lemma PressLists(env: Env, rows: seq<Character>, d: Duo, password: seq<byte>)
    requires UniqueIds(rows) && Joint(rows, d) && d.client.phase.AtSelect?
    ensures var d1 := Apply(d, Pressed(d.client, ReturnKey, password));
            && Step(env, rows, d, Press(ReturnKey, password)) == Next(d1) && Joint(rows, d1)
            && d1.side == d.side && d1.client == d.client.(phase := AwaitList)
            && Unseen(d1, []) && d1.k.inbox == [RequestCharacters] && d1.k.error == d.k.error
  {
    Settled(rows, d);
    hide Joint, UniqueIds;
    assert [] + [RequestCharacters] == [RequestCharacters];
    StepKeeps(env, rows, d, Press(ReturnKey, password));
  }

  /** The client asks, the server lists the player's characters, the client takes the first one. */
  lemma FirstIsSelected(env: Env, rows: seq<Character>, d: Duo, e: Event, i: nat, sameVersion: bool, password: seq<byte>)
    returns (d3: Duo)
    requires UniqueIds(rows) && Joint(rows, d) && d.client.phase.AtSelect? && IsVisit(e, rows)
    requires d.side.AsSession? && FirstOwned(rows, d.side.s.playerID, i)
    ensures After(env, rows, d, [Press(ReturnKey, password), e, ClientReads(sameVersion, password)]) == Next(d3)
    ensures Joint(rows, d3) && d3.side == d.side && d3.client.phase.AwaitRoute?
    ensures d3.client.current == Some(Listed(rows[i])) && d3.client.username == d.client.username
    ensures d3.k.inbox == [Inbound.SelectCharacter(rows[i].id)] && Unseen(d3, [])
  {
    var press, read := Press(ReturnKey, password), ClientReads(sameVersion, password);
    var own := Filter((ch: Character) => Owns(ch, d.side.s.playerID), rows);
    ListStartsWith(rows, d.side.s.playerID, i);
    var d1 := Apply(d, Pressed(d.client, ReturnKey, password));
    PressLists(env, rows, d, password);
    hide Filter, FirstOwned, UniqueIds, Joint, Apply, Pressed;
    ListVisit(env, rows, d1, e);
    var d2 := d1.(k := d1.k.(inbox := [], outbox := d1.k.outbox + [PlayerCharacters(own)]));
    StepKeeps(env, rows, d1, e);
    ListRead(env, rows, d2, own, read);
    d3 := ClientReadStep(d2, read);
    AfterThree(env, rows, d, press, d1, e, d2, read, d3);
  }

  lemma ListRead(env: Env, rows: seq<Character>, d: Duo, own: seq<Character>, read: Event)
    requires read.ClientReads? && own != [] && UniqueIds(rows) && Joint(rows, d) && d.client.phase.AwaitList?
    requires d.k.inbox == [] && Unseen(d, [PlayerCharacters(own)])
    ensures d.client.seen < |d.k.outbox|
    ensures var d' := ClientReadStep(d, read);
            && Step(env, rows, d, read) == Next(d') && Joint(rows, d') && d'.side == d.side
            && d'.client.phase.AwaitRoute? && d'.client.current == Some(Listed(own[0]))
            && d'.client.username == d.client.username
            && d'.k.inbox == [Inbound.SelectCharacter(own[0].id)] && Unseen(d', [])
  {
    ReadAll(d, PlayerCharacters(own));
    assert [] + [Inbound.SelectCharacter(own[0].id)] == [Inbound.SelectCharacter(own[0].id)];
    hide Joint, UniqueIds;
    StepKeeps(env, rows, d, read);
  }

  /** The server answers the selection, the client reads the answer. */
  lemma SelectionPlaysIff(env: Env, rows: seq<Character>, d: Duo, e: Event, ch: Character, sameVersion: bool, password: seq<byte>)
    returns (d2: Duo)
    requires UniqueIds(rows) && Joint(rows, d) && d.client.phase.AwaitRoute? && IsVisit(e, rows)
    requires d.side.AsSession? && ch in rows && ch.playerID == d.side.s.playerID && e.route(ch.locationID) != Dangling
    requires d.k.inbox == [Inbound.SelectCharacter(ch.id)] && Unseen(d, [])
    ensures After(env, rows, d, [e, ClientReads(sameVersion, password)]) == Next(d2) && Joint(rows, d2)
    ensures d2.client.current == d.client.current && d2.side.AsSession?
    ensures if e.route(ch.locationID).To? then d2.client.phase.Playing? && d2.side.s.characterID == ch.id
            else d2.client.phase.AtSelect? && d2.side == d.side
  {
    var read := ClientReads(sameVersion, password);
    var r := e.route(ch.locationID);
    AttendOwes(d.side.s, d.k, e.q, e.route, ch);
    hide Attend, UniqueIds, Joint;
    var m := if r.To? then Instructions(r.friendlyName, r.host, r.port) else NoMapServer;
    var d1 := ServerStep(env, d, e).d;
    Answered(d, m, d1.k);
    SameUnseen(d.(k := d1.k), d1, [m]);
    ReadAll(d1, m);
    d2 := ClientReadStep(d1, read);
    StepKeeps(env, rows, d, e);
    StepKeeps(env, rows, d1, read);
    hide ServerStep;
    AfterOne(env, rows, d, e, d1, [read]);
    AfterOne(env, rows, d1, read, d2, []);
    assert [e] + [read] == [e, read] && [read] + [] == [read];
  }

  /**
   * A client at CHARACTER_SELECT whose player owns a character: once both ends have taken their turns it is
   * PLAYING with the first of them, which the session records, exactly when that character's location has a
   * route; otherwise it is back at CHARACTER_SELECT.
   */
  lemma PlayingIsReached(
    env: Env, rows: seq<Character>, d: Duo, e1: Event, e2: Event, i: nat, sameVersion: bool, password: seq<byte>)
    requires UniqueIds(rows) && Joint(rows, d) && d.client.phase.AtSelect? && IsVisit(e1, rows) && IsVisit(e2, rows)
    requires d.side.AsSession? && FirstOwned(rows, d.side.s.playerID, i) && e2.route(rows[i].locationID) != Dangling
    ensures var read := ClientReads(sameVersion, password);
            var r := After(env, rows, d, [Press(ReturnKey, password), e1, read, e2, read]);
            && r.Next? && Joint(rows, r.d) && r.d.side.AsSession?
            && r.d.client.current == Some(rows[i].(locationID := 0))
            && (if e2.route(rows[i].locationID).To? then r.d.client.phase.Playing? && r.d.side.s.characterID == rows[i].id
                else r.d.client.phase.AtSelect?)
  {
    var press, read := Press(ReturnKey, password), ClientReads(sameVersion, password);
    var d3 := FirstIsSelected(env, rows, d, e1, i, sameVersion, password);
    hide Joint, UniqueIds, After;
    var d5 := SelectionPlaysIff(env, rows, d3, e2, rows[i], sameVersion, password);
    AfterBoth(env, rows, d, [press, e1, read], d3, [e2, read]);
    assert [press, e1, read] + [e2, read] == [press, e1, read, e2, read];
  }

  /** With the routes of a server whose pointers are live: PLAYING is reached exactly when some map server stores the map. */
  lemma ServedMapIsReached(
    env: Env, rows: seq<Character>, d: Duo, e1: Event, e2: Event, i: nat, sameVersion: bool, password: seq<byte>,
    s: LoginData.Data)
    requires UniqueIds(rows) && Joint(rows, d) && d.client.phase.AtSelect? && IsVisit(e1, rows) && IsVisit(e2, rows)
    requires d.side.AsSession? && FirstOwned(rows, d.side.s.playerID, i)
    requires Routing.CatalogOk(env, s) && Routing.PointersLive(s)
    requires e2.route == LoginData.Routes(env, s.servers, s.served, s.generation)
    ensures var read := ClientReads(sameVersion, password);
            var r := After(env, rows, d, [Press(ReturnKey, password), e1, read, e2, read]);
            && r.Next?
            && (r.d.client.phase.Playing? <==>
                && rows[i].locationID in env.idToName
                && exists m: nat :: Routing.Stores(s.servers, m, env.idToName[rows[i].locationID]))
  {
    Routing.RouteIsExact(env, s, rows[i].locationID);
    hide Joint, UniqueIds, After, Routing.CatalogOk, Routing.PointersLive, LoginData.RouteFor, Routing.FirstStores;
    PlayingIsReached(env, rows, d, e1, e2, i, sameVersion, password);
  }
}
