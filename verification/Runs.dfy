/** Theorems about every run of the login server: any peers, any network, any interleaving of its threads. */
module Runs {
  import opened Prelude
  import opened Domain
  import opened Handlers
  import opened LoginData
  import opened Threads
  import opened Ownership
  import opened Connections
  import opened Sessions
  import opened Routing

  /** The global invariant. */
  ghost predicate Inv(env: Env, s: Sys) {
    && LocksOk(s) && Conserved(s) && ConnsOk(s) && TalkOk(s.d) && WelcomeOk(s) && SessionsOk(s) && CatalogOk(env, s.d)
  }

  lemma BootInv(env: Env)
    ensures Inv(env, Boot(env))
  {
    BootConserved(env);
  }

  lemma IncomingKeepsTalk(env: Env, s: Sys, e: Event)
    requires e.ScanStart? || e.ScanEnd? || e.LockSessions? || e.Append? || e.LockMaps? || e.Register? || e.Finish?
    requires ConnsOk(s) && TalkOk(s.d) && WelcomeOk(s) && StepIncoming(env, s, e).Next?
    ensures var t := StepIncoming(env, s, e).s; TalkOk(t.d) && WelcomeOk(t)
  {
    hide Sound, Coherent, Decreasing, Welcome, EmplaceAll;
  }

  lemma OthersKeepTalk(s: Sys, e: Event)
    requires e.Arrive? || e.Break? || e.AcceptSocket? || e.AcceptorLock? || e.AcceptorPush?
    requires TalkOk(s.d) && WelcomeOk(s)
    ensures e.Arrive? || e.Break? ==> StepEnvironment(s, e).Next? ==>
              var t := StepEnvironment(s, e).s; TalkOk(t.d) && WelcomeOk(t)
    ensures !e.Arrive? && !e.Break? ==> StepAcceptor(s, e).Next? ==>
              var t := StepAcceptor(s, e).s; TalkOk(t.d) && WelcomeOk(t)
  {
  }

  lemma TalkKept(env: Env, s: Sys, e: Event)
    requires ConnsOk(s) && Exclusive(s) && TalkOk(s.d) && WelcomeOk(s) && Step(env, s, e).Next?
    ensures var t := Step(env, s, e).s; TalkOk(t.d) && WelcomeOk(t)
  {
    hide StepEnvironment, StepAcceptor, StepScan, StepIncoming, StepConnected, ConnsOk, Exclusive, TalkOk, WelcomeOk;
    if e.ScanOne? {
      assert s.i.IScan? && s.i.i < |s.d.incoming| by { ScanEnabled(env, s, e.q); }
      VisitKeepsTalk(env, s, e.q);
    } else if e.PassStart? || e.ServeOne? || e.PassEnd? {
      ConnectedKeepsTalk(env, s, e);
    } else if e.ScanStart? || e.ScanEnd? || e.LockSessions? || e.Append? || e.LockMaps? || e.Register? || e.Finish? {
      IncomingKeepsTalk(env, s, e);
    } else {
      OthersKeepTalk(s, e);
    }
  }

  lemma ScanEnabled(env: Env, s: Sys, q: Fate)
    requires StepScan(env, s, q) != Off
    ensures s.i.IScan? && s.i.i < |s.d.incoming|
  {
  }

  lemma StepInv(env: Env, s: Sys, e: Event)
    requires Inv(env, s) && Step(env, s, e).Next?
    ensures Inv(env, Step(env, s, e).s)
  {
    hide Step, LocksOk, Conserved, ConnsOk, TalkOk, WelcomeOk, SessionsOk, CatalogOk;
    ConservedIsExclusive(s);
    LocksKept(env, s, e);
    ConservedKept(env, s, e);
    ConnsKept(env, s, e);
    TalkKept(env, s, e);
    SessionsKept(env, s, e);
    CatalogKept(env, s, e);
  }

  /** The invariant holds in every state of every run. */
  lemma {:induction false} RunInv(env: Env, t: seq<Sys>, es: seq<Event>, k: nat)
    requires IsRun(env, t, es) && k < |t|
    ensures Inv(env, t[k])
  {
    hide Inv, Step;
    if k == 0 {
      BootInv(env);
    } else {
      RunInv(env, t, es, k - 1);
      assert Step(env, t[k - 1], es[k - 1]) == Next(t[k]);
      StepInv(env, t[k - 1], es[k - 1]);
    }
  }

  // --- Ownership ---

  /** Every accepted socket has exactly one owner at all times, and only accepted sockets have one. */
  lemma OneOwner(env: Env, t: seq<Sys>, es: seq<Event>, k: nat, id: SockId)
    requires IsRun(env, t, es) && k < |t|
    ensures Owners(t[k].d, id) + InFlight(t[k], id) == One(id in t[k].d.net)
  {
    RunInv(env, t, es, k);
    AtMostOneOwner(t[k], id);
  }

  /** When `incomingConnectionsMutex` is free, a connection without a socket is done, and never looked at again. */
  lemma MovedOutIsDone(env: Env, t: seq<Sys>, es: seq<Event>, k: nat, x: nat)
    requires IsRun(env, t, es) && k < |t| && t[k].incomingLock.None? && x < |t[k].d.incoming|
    ensures t[k].d.incoming[x].socket.None? ==> t[k].d.incoming[x].state.Done?
    ensures Coherent(t[k].d.incoming[x])
  {
    RunInv(env, t, es, k);
    assert !Busy(t[k].i, x) && AtRest(t[k].d.net, t[k].d.incoming[x]);
  }

  /** The purge drops exactly the connections that are done and keeps the others in order. */
  lemma PurgeDropsDone(d: Data)
    ensures Selects(NotDone, d.incoming, Kept(NotDone, d.incoming), Purge(d).incoming)
    ensures Purge(d).dropped == d.dropped + Sockets(Filter(IsDone, d.incoming))
  {
    FilterIsStable(NotDone, d.incoming);
  }

  // --- Faults ---

  lemma AttendDangles(s: Session, k: Sock, q: Ask, route: nat -> Route)
    requires Attend(s, k, q, route).ReadDangling?
    ensures exists location: nat :: route(location) == Dangling
  {
    hide Filter, Transmit;
  }

  lemma ServeFaults(env: Env, s: Sys, q: Fate)
    requires Inv(env, s) && StepConnected(env, s, ServeOne(q)).Crashed?
    ensures !PointersLive(s.d)
  {
    hide Attend, RouteFor, LocksOk, Conserved, ConnsOk, TalkOk, WelcomeOk, CatalogOk, AddrsOk, IndexOk, GuidsOk;
    ConservedIsExclusive(s);
    var x := s.d.sessions[s.c.j].value;
    var routes := Routes(env, s.d.servers, s.d.served, s.d.generation);
    AttendDangles(x, s.d.net[x.socket], Ask(q.send, q.db, {}), routes);
    var location: nat :| routes(location) == Dangling;
    RouteIsGood(env, s.d, location);
  }

  lemma OthersCannotFault(env: Env, s: Sys, e: Event)
    requires ConnsOk(s) && Exclusive(s) && !e.ServeOne?
    ensures !Step(env, s, e).Crashed?
  {
    hide StepConnected, StepIncoming, StepScan, ConnsOk, Exclusive;
    if e.ScanOne? {
      ScanCannotFault(env, s, e.q);
    } else if e.PassStart? || e.PassEnd? {
      PassCannotFault(env, s, e);
    } else if e.ScanStart? || e.ScanEnd? || e.LockSessions? || e.Append? || e.LockMaps? || e.Register? || e.Finish? {
      IncomingKeepsConns(env, s, e);
    }
  }

  lemma StepFaults(env: Env, s: Sys, e: Event)
    requires Inv(env, s) && Step(env, s, e).Crashed?
    ensures e.ServeOne? && !PointersLive(s.d)
  {
    InvParts(env, s);
    hide Inv, StepConnected, StepIncoming, StepScan, ConnsOk, Exclusive, CatalogOk, LocksOk, SessionsOk, PointersLive;
    if e.ServeOne? {
      ServeFaults(env, s, e.q);
    } else {
      hide Step;
      OthersCannotFault(env, s, e);
    }
  }

  /**
   * No null socket is ever used and no REQUIRE ever fails. The only possible fault is reading a map server
   * through a dangling pointer, and that takes more registrations than reserved places.
   */
  lemma OnlyDanglingFaults(env: Env, t: seq<Sys>, es: seq<Event>, k: nat, e: Event)
    requires IsRun(env, t, es) && k < |t| && Step(env, t[k], e).Crashed?
    ensures e.ServeOne? && !PointersLive(t[k].d) && |t[k].d.servers| > Room(env) >= |env.allMaps|
  {
    hide Inv, Step, PointersLive;
    RunInv(env, t, es, k);
    DanglingIff(env, t, es, k);
    StepFaults(env, t[k], e);
  }

  lemma PassCannotFault(env: Env, s: Sys, e: Event)
    ensures e.PassStart? || e.PassEnd? ==> !StepConnected(env, s, e).Crashed?
  {
  }

  lemma InvParts(env: Env, s: Sys)
    requires Inv(env, s)
    ensures ConnsOk(s) && Exclusive(s) && CatalogOk(env, s.d) && LocksOk(s) && SessionsOk(s)
  {
    ConservedIsExclusive(s);
  }

  lemma ScanCannotFault(env: Env, s: Sys, q: Fate)
    requires ConnsOk(s) && Exclusive(s)
    ensures !StepScan(env, s, q).Crashed?
  {
    hide Visit, ConnsOk, Exclusive;
    if s.i.IScan? && s.i.i < |s.d.incoming| {
      VisitKeepsConns(env, s, q);
    }
  }

  lemma {:induction false} RunStable(env: Env, t: seq<Sys>, es: seq<Event>, k: nat)
    requires IsRun(env, t, es) && k < |t| && forall j :: 0 <= j < k ==> NoSharedOffers(t[j].d)
    ensures Stable(env, t[k].d)
  {
    hide Step, NoSharedOffers, Inv;
    if k > 0 {
      RunStable(env, t, es, k - 1);
      RunInv(env, t, es, k - 1);
      InvParts(env, t[k - 1]);
      assert Step(env, t[k - 1], es[k - 1]) == Next(t[k]);
      StableKept(env, t[k - 1], es[k - 1]);
    }
  }

  /**
   * If no two connections are ever offered the same map at the same time, then there are never more
   * registered servers than loaded maps, no pointer ever dangles, and no step ever faults.
   */
  lemma PointersNeverDangle(env: Env, t: seq<Sys>, es: seq<Event>, k: nat, e: Event)
    requires IsRun(env, t, es) && k < |t| && forall j :: 0 <= j < k ==> NoSharedOffers(t[j].d)
    ensures |t[k].d.servers| <= |t[k].d.served| <= |env.allMaps| && PointersLive(t[k].d)
    ensures !Step(env, t[k], e).Crashed?
  {
    hide Step, NoSharedOffers, Inv;
    RunStable(env, t, es, k);
    RunInv(env, t, es, k);
    InvParts(env, t[k]);
    StableBound(env, t[k].d);
    PointersLiveIff(env, t[k].d);
    NamesBound(env.allMaps);
    SubsetSize(t[k].d.served.Keys, Names(env.allMaps));
    if Step(env, t[k], e).Crashed? {
      OnlyDanglingFaults(env, t, es, k, e);
    }
  }

  /** In every run, pointers are sound exactly while at most as many servers registered as places were reserved. */
  lemma DanglingIff(env: Env, t: seq<Sys>, es: seq<Event>, k: nat)
    requires IsRun(env, t, es) && k < |t|
    ensures PointersLive(t[k].d) <==> |t[k].d.servers| <= Room(env)
  {
    hide Inv, IsRun;
    RunInv(env, t, es, k);
    InvParts(env, t[k]);
    PointersLiveIff(env, t[k].d);
  }

  // --- Deadlock ---

  /** In every reachable state every thread can move, or waits (directly or through one other) for one that can. */
  lemma NeverDeadlocked(env: Env, t: seq<Sys>, es: seq<Event>, k: nat, th: Thread)
    requires IsRun(env, t, es) && k < |t|
    ensures exists u :: CanMove(env, t[k], u) &&
              (u == th || WaitsFor(t[k], th) == Some(u)
               || (WaitsFor(t[k], th).Some? && WaitsFor(t[k], WaitsFor(t[k], th).value) == Some(u)))
  {
    hide Inv, IsRun, CanMove;
    RunInv(env, t, es, k);
    InvParts(env, t[k]);
    NoDeadlock(env, t[k], th);
  }

  // --- Routing ---

  lemma AttendInstructs(s: Session, k: Sock, q: Ask, route: nat -> Route, m: Outbound)
    requires m.Instructions? && Attend(s, k, q, route).Attended?
    requires Attend(s, k, q, route).sock.outbox == k.outbox + [m]
    ensures k.inbox != [] && k.inbox[0].SelectCharacter?
    ensures var rows := Filter((ch: Character) => Owns(ch, s.playerID) && ch.id == k.inbox[0].id, q.db.characters);
            && |rows| == 1 && route(rows[0].locationID) == To(m.friendlyName, m.host, m.port)
            && Attend(s, k, q, route).session.characterID == k.inbox[0].id
  {
    hide Filter;
    assert Attend(s, k, q, route).sock.outbox[|k.outbox|] == m;
  }

  /** A step of `processConnected` that sends `m` on the socket of the session it serves. */
  ghost predicate Sends(s: Sys, t: Sys, m: Outbound) {
    && s.c.CScan? && s.c.j < |s.d.sessions| && s.d.sessions[s.c.j].Some?
    && var id := s.d.sessions[s.c.j].value.socket;
       id in s.d.net && id in t.d.net && t.d.net[id].outbox == s.d.net[id].outbox + [m]
  }

  lemma GoneSendsNothing(env: Env, s: Sys, q: Fate, m: Outbound)
    requires StepConnected(env, s, ServeOne(q)).Next? && Sends(s, StepConnected(env, s, ServeOne(q)).s, m)
    ensures Serve(env, s.d, s.c.j, q).Alive?
  {
    hide Attend, Routes;
    var id := s.d.sessions[s.c.j].value.socket;
    assert (s.d.net[id].outbox + [m])[|s.d.net[id].outbox|] == m;
  }

  /** The selected character: the only row with the id asked for that the session's player owns. */
  ghost predicate Selected(s: Sys, q: Fate, ch: Character) {
    && s.c.CScan? && s.c.j < |s.d.sessions| && s.d.sessions[s.c.j].Some?
    && var x := s.d.sessions[s.c.j].value;
       && x.socket in s.d.net && s.d.net[x.socket].inbox != [] && s.d.net[x.socket].inbox[0].SelectCharacter?
       && ch in q.db.characters && ch.playerID == x.playerID && ch.id == s.d.net[x.socket].inbox[0].id
  }

  lemma ServeInstructs(env: Env, s: Sys, q: Fate, m: Outbound)
    requires CatalogOk(env, s.d) && m.Instructions?
    requires StepConnected(env, s, ServeOne(q)).Next? && Sends(s, StepConnected(env, s, ServeOne(q)).s, m)
    ensures exists ch ::
              && Selected(s, q, ch) && GoodRoute(env, s.d, ch.locationID, m.friendlyName, m.host, m.port)
              && StepConnected(env, s, ServeOne(q)).s.d.sessions[s.c.j].Some?
              && StepConnected(env, s, ServeOne(q)).s.d.sessions[s.c.j].value.characterID == ch.id
  {
    GoneSendsNothing(env, s, q, m);
    hide Attend, CatalogOk, RouteFor, GoodRoute;
    var x := s.d.sessions[s.c.j].value;
    var k, a := s.d.net[x.socket], Ask(q.send, q.db, {});
    var routes := Routes(env, s.d.servers, s.d.served, s.d.generation);
    AttendInstructs(x, k, a, routes, m);
    var own := (ch: Character) => Owns(ch, x.playerID) && ch.id == k.inbox[0].id;
    InFilter(own, q.db.characters);
    var ch := Filter(own, q.db.characters)[0];
    assert ch in Filter(own, q.db.characters);
    assert Selected(s, q, ch);
    RouteIsGood(env, s.d, ch.locationID);
  }

  /**
   * Whoever is sent connection instructions has selected a character it owns; the address belongs to a
   * registered server that stores the character's map, under a name and hash that server reported
   * itself, as a row of the catalogue; and the session now records that character.
   */
  lemma InstructionsAreRight(env: Env, t: seq<Sys>, es: seq<Event>, k: nat, m: Outbound)
    requires IsRun(env, t, es) && k < |es| && es[k].ServeOne? && m.Instructions? && Sends(t[k], t[k + 1], m)
    ensures exists ch ::
              && Selected(t[k], es[k].q, ch) && GoodRoute(env, t[k].d, ch.locationID, m.friendlyName, m.host, m.port)
              && t[k].c.j < |t[k + 1].d.sessions| && t[k + 1].d.sessions[t[k].c.j].Some?
              && t[k + 1].d.sessions[t[k].c.j].value.characterID == ch.id
  {
    RunInv(env, t, es, k);
    InvParts(env, t[k]);
    hide Inv, CatalogOk, Sends, Selected, GoodRoute, StepConnected;
    assert Step(env, t[k], es[k]) == Next(t[k + 1]);
    ServeInstructs(env, t[k], es[k].q, m);
    assert |t[k + 1].d.sessions| == |t[k].d.sessions| && t[k].c.j < |t[k].d.sessions| by {
      ServeKeepsLength(env, t[k], es[k].q);
    }
  }

  lemma ServeKeepsLength(env: Env, s: Sys, q: Fate)
    requires StepConnected(env, s, ServeOne(q)).Next?
    ensures s.c.CScan? && s.c.j < |s.d.sessions| == |StepConnected(env, s, ServeOne(q)).s.d.sessions|
  {
    hide Attend, Routes;
  }

  /** The session being served is on a sound socket and selects `ch`, a row that its player owns. */
  ghost predicate Picked(s: Sys, q: Fate, ch: Character) {
    && Selected(s, q, ch) && UniqueIds(q.db.characters)
    && !s.d.net[s.d.sessions[s.c.j].value.socket].error
  }

  /** What a selection of a character at this location is owed. */
  ghost predicate Owed(env: Env, d: Data, location: nat, m: Outbound) {
    if m.Instructions? then
      location in env.idToName
      && exists n: nat :: (&& FirstStores(d.servers, n, env.idToName[location])
                           && m == Instructions(d.servers[n].friendlyName, d.servers[n].host, d.servers[n].port))
    else
      m.NoMapServer? && (location !in env.idToName || forall n: nat :: !Stores(d.servers, n, env.idToName[location]))
  }

  lemma RouteOwes(env: Env, d: Data, location: nat)
    requires CatalogOk(env, d) && |d.servers| <= Room(env)
    ensures var r := RouteFor(env, d.servers, d.served, d.generation, location);
            && r != Dangling
            && Owed(env, d, location, if r.To? then Instructions(r.friendlyName, r.host, r.port) else NoMapServer)
  {
    PointersLiveIff(env, d);
    RouteIsExact(env, d, location);
    hide CatalogOk, RouteFor, FirstStores, Stores;
  }

  lemma ServeOwes(env: Env, s: Sys, q: Fate, ch: Character)
    requires CatalogOk(env, s.d) && |s.d.servers| <= Room(env) && Picked(s, q, ch) && q.send.Sent?
    requires StepConnected(env, s, ServeOne(q)).Next?
    ensures var t, x := StepConnected(env, s, ServeOne(q)).s.d, s.d.sessions[s.c.j].value;
            && x.socket in t.net && |t.sessions| == |s.d.sessions| && t.sessions[s.c.j].Some?
            && exists m :: Owed(env, s.d, ch.locationID, m) && t.net[x.socket].outbox == s.d.net[x.socket].outbox + [m]
                 && t.sessions[s.c.j].value.characterID == if m.Instructions? then ch.id else x.characterID
  {
    var x := s.d.sessions[s.c.j].value;
    var k, a := s.d.net[x.socket], Ask(q.send, q.db, {});
    RouteOwes(env, s.d, ch.locationID);
    hide CatalogOk, RouteFor, Owed, UniqueIds;
    AttendOwes(x, k, a, Routes(env, s.d.servers, s.d.served, s.d.generation), ch);
    hide Attend;
    var r := RouteFor(env, s.d.servers, s.d.served, s.d.generation, ch.locationID);
    var m := if r.To? then Instructions(r.friendlyName, r.host, r.port) else NoMapServer;
    assert Owed(env, s.d, ch.locationID, m);
  }

  /**
   * Whoever selects a character it owns is answered, in every run with pointers live and the send delivered:
   * with instructions for the first registered server that stores the character's map, and then the session
   * records the character; with NO_MAP_SERVER exactly when the location is unknown or no server stores its map.
   */
  lemma SelectionIsRouted(env: Env, t: seq<Sys>, es: seq<Event>, k: nat, ch: Character)
    requires IsRun(env, t, es) && k < |es| && es[k].ServeOne? && es[k].q.send.Sent? && Picked(t[k], es[k].q, ch)
    requires |t[k].d.servers| <= Room(env)
    ensures var d, d', j := t[k].d, t[k + 1].d, t[k].c.j; var x := d.sessions[j].value;
            && x.socket in d'.net && j < |d'.sessions| && d'.sessions[j].Some?
            && exists m :: Owed(env, d, ch.locationID, m) && d'.net[x.socket].outbox == d.net[x.socket].outbox + [m]
                 && d'.sessions[j].value.characterID == if m.Instructions? then ch.id else x.characterID
  {
    RunInv(env, t, es, k);
    InvParts(env, t[k]);
    hide Inv, CatalogOk, Owed, StepConnected, UniqueIds;
    assert Step(env, t[k], es[k]) == Next(t[k + 1]);
    assert es[k] == ServeOne(es[k].q);
    ServeOwes(env, t[k], es[k].q, ch);
  }

  // --- Authentication ---

  /** The new session `x` belongs to a player that the message waiting on connection `i` identifies. */
  ghost predicate Authenticated(env: Env, d: Data, i: nat, players: seq<Player>, x: Session) {
    && i < |d.incoming| && d.incoming[i].socket == Some(x.socket) && x.socket in d.net
    && exists p :: Proves(env, d.net[x.socket], players, p) && x.playerID == players[p].id && x.username == players[p].username
  }

  lemma VisitAuthenticates(env: Env, d: Data, i: nat, q: Fate)
    requires i < |d.incoming| && Visit(env, d, i, q).WantSession?
    ensures Authenticated(env, d, i, q.db.players, Visit(env, d, i, q).s)
  {
    hide Dispatch, Proves, Reported;
    SessionOpensIff(env, d.incoming[i], d.net[d.incoming[i].socket.value], Ask(q.send, q.db, d.served.Keys));
  }

  /** In every run, a session is created only for a player whose password the message on that socket proves. */
  lemma SessionsAreAuthenticated(env: Env, t: seq<Sys>, es: seq<Event>, k: nat)
    requires IsRun(env, t, es) && k < |es| && es[k].ScanOne? && t[k + 1].i.IWantSessions?
    ensures t[k].i.IScan? && Authenticated(env, t[k].d, t[k].i.i, es[k].q.db.players, t[k + 1].i.s)
  {
    hide Visit, Authenticated;
    assert Step(env, t[k], es[k]) == Next(t[k + 1]);
    VisitAuthenticates(env, t[k].d, t[k].i.i, es[k].q);
  }

  /** The same session, whichever character it records. */
  predicate SameSession(x: Session, y: Session) {
    y == x.(characterID := y.characterID)
  }

  /** The session a thread is about to append. */
  function Opening(s: Sys): Option<Session> {
    if s.i.IWantSessions? || s.i.IHoldSessions? then Some(s.i.s) else None
  }

  /** `x` is a session of this state: on the list, or about to be appended. */
  ghost predicate Held(s: Sys, x: Session) {
    Opening(s) == Some(x) || exists j :: Live(s.d, j) && s.d.sessions[j].value == x
  }

  /** A session held after a step was held before it, or has just been opened. */
  lemma HeldBefore(env: Env, s: Sys, e: Event, x: Session)
    requires Step(env, s, e).Next? && Held(Step(env, s, e).s, x)
    ensures (exists y :: Held(s, y) && SameSession(y, x))
         || (e.ScanOne? && Step(env, s, e).s.i == IWantSessions(s.i.i, x))
  {
    hide Visit, Serve, Sweep, EmplaceAll, Origin, Held;
    var t := Step(env, s, e).s;
    if Opening(t) == Some(x) {
      if Opening(s) == Some(x) {
        OpeningIsHeld(s, x);
      }
    } else {
      var j := FindHeld(t, x);
      match e
      case ScanOne(q) => VisitLeavesSessions(env, s.d, s.i.i, q); OnListIsHeld(s, j);
      case Append =>
        if j < |s.d.sessions| {
          OnListIsHeld(s, j);
        } else {
          OpeningIsHeld(s, x);
        }
      case ServeOne(q) => ServeShape(env, s.d, s.c.j, q); OnListIsHeld(s, j);
      case PassEnd =>
        SweepFrame(s.d);
        SweepIsStable(s.d);
        OnListIsHeld(s, if s.c.cleared then Origin(s.d, j) else j);
      case _ => OnListIsHeld(s, j);
    }
  }

  lemma FindHeld(s: Sys, x: Session) returns (j: nat)
    requires Held(s, x) && Opening(s) != Some(x)
    ensures Live(s.d, j) && s.d.sessions[j].value == x
  {
    j :| Live(s.d, j) && s.d.sessions[j].value == x;
  }

  lemma OpeningIsHeld(s: Sys, x: Session)
    requires Opening(s) == Some(x)
    ensures Held(s, x)
  {
  }

  lemma OnListIsHeld(s: Sys, j: nat)
    requires Live(s.d, j)
    ensures Held(s, s.d.sessions[j].value)
  {
  }

  /** Step `j` of the run opened session `x`, for the player that the message waiting on its socket proved. */
  ghost predicate OpenedAt(env: Env, t: seq<Sys>, es: seq<Event>, j: int, x: Session) {
    && 0 <= j < |es| && j + 1 < |t| && es[j].ScanOne? && t[j].i.IScan?
    && exists y :: SameSession(y, x) && Authenticated(env, t[j].d, t[j].i.i, es[j].q.db.players, y)
  }

  /** Every session held at any time in any run stems from a step that proved its player's password. */
  lemma {:induction false} SessionsStem(env: Env, t: seq<Sys>, es: seq<Event>, k: nat, x: Session)
    requires IsRun(env, t, es) && k < |t| && Held(t[k], x)
    ensures exists j :: 0 <= j < k && OpenedAt(env, t, es, j, x)
  {
    hide Held, Step, Authenticated;
    if k == 0 {
      NothingHeld(env, x);
    } else {
      assert Step(env, t[k - 1], es[k - 1]) == Next(t[k]);
      HeldBefore(env, t[k - 1], es[k - 1], x);
      if y :| Held(t[k - 1], y) && SameSession(y, x) {
        SessionsStem(env, t, es, k - 1, y);
        var j :| 0 <= j < k - 1 && OpenedAt(env, t, es, j, y);
        var z :| SameSession(z, y) && Authenticated(env, t[j].d, t[j].i.i, es[j].q.db.players, z);
        assert SameSession(z, x) && OpenedAt(env, t, es, j, x);
      } else {
        SessionsAreAuthenticated(env, t, es, k - 1);
        assert SameSession(x, x) && OpenedAt(env, t, es, k - 1, x);
      }
    }
  }

  lemma NothingHeld(env: Env, x: Session)
    ensures !Held(Boot(env), x)
  {
  }

  // --- The username index ---

  /** Every index entry is the address of exactly one live session, and that session has the entry's username. */
  lemma IndexNeverDangles(env: Env, t: seq<Sys>, es: seq<Event>, k: nat, u: string)
    requires IsRun(env, t, es) && k < |t| && u in t[k].d.index
    ensures exists j :: Live(t[k].d, j) && t[k].d.sessions[j].value.addr == t[k].d.index[u]
    ensures forall j :: Live(t[k].d, j) && t[k].d.sessions[j].value.addr == t[k].d.index[u] ==>
              t[k].d.sessions[j].value.username == u
  {
    RunInv(env, t, es, k);
    InvParts(env, t[k]);
    hide Inv, IsRun, SessionsOk;
    IndexPoints(t[k], u);
  }

  lemma {:induction false} IndexCompleteWhileDistinct(env: Env, t: seq<Sys>, es: seq<Event>, k: nat)
    requires IsRun(env, t, es) && k < |t| && forall j :: 0 <= j <= k ==> UsersDistinct(t[j].d)
    ensures IndexComplete(t[k].d)
  {
    hide Step, Inv, UsersDistinct;
    if k > 0 {
      IndexCompleteWhileDistinct(env, t, es, k - 1);
      RunInv(env, t, es, k - 1);
      InvParts(env, t[k - 1]);
      assert Step(env, t[k - 1], es[k - 1]) == Next(t[k]);
      CompleteKept(env, t[k - 1], es[k - 1]);
    }
  }

  /** The index finds every live session throughout a run if and only if no user is ever live twice in it. */
  lemma IndexCompleteIff(env: Env, t: seq<Sys>, es: seq<Event>)
    requires IsRun(env, t, es)
    ensures (forall k :: 0 <= k < |t| ==> IndexComplete(t[k].d)) <==> (forall k :: 0 <= k < |t| ==> UsersDistinct(t[k].d))
  {
    hide IndexComplete, UsersDistinct, Inv, IsRun;
    forall k | 0 <= k < |t| && IndexComplete(t[k].d)
      ensures UsersDistinct(t[k].d)
    {
      RunInv(env, t, es, k);
      InvParts(env, t[k]);
      CompleteMeansDistinct(t[k]);
    }
    if forall k :: 0 <= k < |t| ==> UsersDistinct(t[k].d) {
      forall k | 0 <= k < |t|
        ensures IndexComplete(t[k].d)
      {
        IndexCompleteWhileDistinct(env, t, es, k);
      }
    }
  }

  /** Until 2^64 sessions have been created, guids strictly increase along the session list. */
  lemma GuidsIncrease(env: Env, t: seq<Sys>, es: seq<Event>, k: nat, i: nat, j: nat)
    requires IsRun(env, t, es) && k < |t| && t[k].d.created <= GUIDS
    requires i < j && Live(t[k].d, i) && Live(t[k].d, j)
    ensures t[k].d.sessions[i].value.guid < t[k].d.sessions[j].value.guid < GUIDS
  {
    RunInv(env, t, es, k);
    InvParts(env, t[k]);
    assert GuidsOk(t[k]);
  }

  // --- Conversations ---

  /** On every socket, the failed responses carry strictly decreasing numbers of remaining attempts. */
  lemma FailuresCountDown(env: Env, t: seq<Sys>, es: seq<Event>, k: nat, id: SockId)
    requires IsRun(env, t, es) && k < |t| && id in t[k].d.net
    ensures Decreasing(t[k].d.net[id].outbox)
    ensures t[k].d.net[id].read <= 3 + t[k].d.net[id].unanswered
  {
    hide IsRun, Decreasing;
    RunInv(env, t, es, k);
    assert TalkOk(t[k].d);
  }

  /** The login server would still serve this socket: a live session, a map server, or a connection not done. */
  ghost predicate StillServed(d: Data, id: SockId) {
    || (exists j :: 0 <= j < |d.sessions| && d.sessions[j].Some? && d.sessions[j].value.socket == id)
    || (exists m :: 0 <= m < |d.servers| && d.servers[m].socket == id)
    || (exists x :: 0 <= x < |d.incoming| && d.incoming[x].socket == Some(id) && !d.incoming[x].state.Done?)
  }

  /** A peer told that it has no attempts left, and so hanging up, is one the server no longer serves. */
  lemma ZeroIsFinal(env: Env, t: seq<Sys>, es: seq<Event>, k: nat, id: SockId, n: nat)
    requires IsRun(env, t, es) && k < |t| && id in t[k].d.net && n < |t[k].d.net[id].outbox|
    requires IsFailure(t[k].d.net[id].outbox[n]) && t[k].d.net[id].outbox[n].remaining == 0
    ensures !StillServed(t[k].d, id)
  {
    RunInv(env, t, es, k);
    var s := t[k];
    assert ConnsOk(s) && WelcomeOk(s);
    hide IsRun, Inv, Coherent;
    forall x | 0 <= x < |s.d.incoming| && s.d.incoming[x].socket == Some(id)
      ensures s.d.incoming[x].state.Done?
    {
      if !Busy(s.i, x) {
        assert AtRest(s.d.net, s.d.incoming[x]);
        AttemptsLeft(s.d.incoming[x]);
        assert FailuresAtLeast(s.d.net[id].outbox, MAX_ATTEMPTS - s.d.incoming[x].attempts) || s.d.incoming[x].state.Done?;
      }
    }
  }

  lemma AttemptsLeft(c: Connection)
    requires Coherent(c)
    ensures c.state.Done? || MAX_ATTEMPTS - c.attempts >= 1
  {
  }

  /** When the incoming lock is free, a connection that took three messages, all answered, is done. */
  lemma ThreeMessagesAtMost(env: Env, t: seq<Sys>, es: seq<Event>, k: nat, x: nat)
    requires IsRun(env, t, es) && k < |t| && t[k].incomingLock.None? && x < |t[k].d.incoming|
    requires t[k].d.incoming[x].socket.Some?
    ensures t[k].d.incoming[x].socket.value in t[k].d.net
    ensures var c, sock := t[k].d.incoming[x], t[k].d.net[t[k].d.incoming[x].socket.value];
            && sock.read + Rank(c) <= 3 + sock.unanswered
            && (sock.read == 3 && sock.unanswered == 0 ==> c.state.Done?)
  {
    RunInv(env, t, es, k);
    InvParts(env, t[k]);
    hide Inv, IsRun, Exclusive, CatalogOk, SessionsOk;
    assert !Busy(t[k].i, x) && AtRest(t[k].d.net, t[k].d.incoming[x]);
  }
}
