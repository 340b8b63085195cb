/** One game client at a socket of the whole login server, among any other peers, under any interleaving. */
module ClientInRuns {
  import opened Prelude
  import opened Domain
  import opened Handlers
  import opened LoginData
  import opened Threads
  import opened Runs
  import opened WholeLoops
  import opened SocketViews
  import C = ClientLogin

  /** The server, and the client whose socket it knows by some id; `said` is what the client put on it. */
  datatype World = World(s: Sys, client: C.Client, said: seq<Inbound>)

  datatype WorldEvent = ByServer(step: Event) | ByClient(action: C.Event)

  /** On this socket nothing but the client's messages arrive and nothing breaks; sends succeed and the rows are fixed. */
  ghost predicate Fair(s: Sys, e: Event, rows: seq<Character>, id: SockId) {
    Touches(s, e, id) ==> !e.Arrive? && !e.Break? && e.q.send.Sent? && e.q.db.characters == rows
  }

  /** The client's own step needs only the socket, whoever holds the other end. */
  ghost function ClientStep(env: Env, rows: seq<Character>, id: SockId, w: World, e: C.Event): C.Result
    requires id in w.s.d.net
  {
    C.Step(env, rows, C.Duo(w.client, C.AsConnection(NewConnection(id)), w.s.d.net[id], w.said), e)
  }

  ghost function WorldStep(env: Env, rows: seq<Character>, id: SockId, w: World, e: WorldEvent): Option<World> {
    match e
    case ByServer(e) =>
      if Fair(w.s, e, rows, id) && Step(env, w.s, e).Next? then Some(w.(s := Step(env, w.s, e).s)) else None
    case ByClient(e) =>
      if id !in w.s.d.net || e.ServerVisit? || ClientStep(env, rows, id, w, e).Off? then None
      else
        var d := ClientStep(env, rows, id, w, e).d;
        Some(World(w.s.(d := w.s.d.(net := w.s.d.net[id := d.k])), d.client, d.said))
  }

  /** A run of the world: the client waits for its challenge from the start, the server boots. */
  ghost predicate IsWorldRun(
    env: Env, rows: seq<Character>, id: SockId, cl: C.Client, t: seq<World>, es: seq<WorldEvent>) {
    && |t| == |es| + 1 && t[0] == World(Boot(env), C.Calling(cl), [])
    && forall k :: 0 <= k < |es| ==> WorldStep(env, rows, id, t[k], es[k]) == Some(t[k + 1])
  }

  /** Client, socket and holder, as the two-party protocol sees them. */
  ghost predicate Fits(rows: seq<Character>, w: World, id: SockId, o: Owner)
    requires id in w.s.d.net
  {
    match o
    case OfConnection(c) => C.Joint(rows, C.Duo(w.client, C.AsConnection(c), w.s.d.net[id], w.said))
    case OfSession(x) => C.Joint(rows, C.Duo(w.client, C.AsSession(x), w.s.d.net[id], w.said))
    case _ => false
  }

  ghost predicate Good(env: Env, rows: seq<Character>, id: SockId, w: World) {
    && Reachable(env, w.s)
    && (id !in w.s.d.net ==> w.client == C.Calling(w.client) && w.said == [])
    && (id in w.s.d.net ==> exists o :: Holds(w.s, id, o) && Fits(rows, w, id, o))
  }

  // --- Server steps ---

  lemma DialledFits(rows: seq<Character>, w: World, id: SockId)
    requires id in w.s.d.net && w.s.d.net[id] == NEW_SOCK && w.client == C.Calling(w.client)
    ensures Fits(rows, w, id, OfConnection(NewConnection(id)))
  {
    assert C.Unseen(C.Duo(w.client, C.AsConnection(NewConnection(id)), NEW_SOCK, w.said), []);
  }

  lemma ScanFits(env: Env, rows: seq<Character>, id: SockId, w: World, q: Fate, o: Owner) returns (o': Owner)
    requires Inv(env, w.s) && Holds(w.s, id, o) && Fits(rows, w, id, o) && UniqueIds(rows)
    requires Touches(w.s, ScanOne(q), id) && q.send.Sent? && StepScan(env, w.s, q).Next?
    ensures var t := StepScan(env, w.s, q).s; id in t.d.net && Holds(t, id, o') && Fits(rows, w.(s := t), id, o')
  {
    hide Inv, Holds, Touches, StepScan, C.Joint;
    HeldIsKnown(w.s, id, o);
    ScanTouch(env, w.s, q, id, o);
    var k := w.s.d.net[id];
    var d := C.Duo(w.client, C.AsConnection(o.c), k, w.said);
    var e := C.ServerVisit(Ask(q.send, q.db, w.s.d.served.Keys), q.addr, w.s.d.created % GUIDS, (l: nat) => Unserved);
    C.ConnectionVisit(env, rows, d, e);
    JointIsLive(rows, d);
    if o.c.state.Done? {
      DoneStays(env, o.c, k, e.q);
    }
    hide Dispatch;
    o' := AfterVisit(env, w.s, q, id, o.c).0;
  }

  lemma JointIsLive(rows: seq<Character>, d: C.Duo)
    requires C.Joint(rows, d)
    ensures !d.k.error
  {
  }

  lemma DoneStays(env: Env, c: Connection, k: Sock, q: Ask)
    requires c.state.Done?
    ensures Dispatch(env, c, k, q) == Effect(c, k, Stay)
  {
    hide OnChallengeSent, OnLoginFailed, OnMapList;
  }

  lemma ServeFits(env: Env, rows: seq<Character>, id: SockId, w: World, q: Fate, o: Owner) returns (o': Owner)
    requires Inv(env, w.s) && Holds(w.s, id, o) && Fits(rows, w, id, o) && UniqueIds(rows)
    requires Touches(w.s, ServeOne(q), id) && q.send.Sent? && q.db.characters == rows
    requires StepConnected(env, w.s, ServeOne(q)).Next?
    ensures var t := StepConnected(env, w.s, ServeOne(q)).s; id in t.d.net && Holds(t, id, o') && Fits(rows, w.(s := t), id, o')
  {
    hide Inv, Holds, Touches, StepConnected, C.Joint, UniqueIds, Attend, Routes;
    HeldIsKnown(w.s, id, o);
    ServeTouch(env, w.s, q, id, o);
    var k := w.s.d.net[id];
    var d := C.Duo(w.client, C.AsSession(o.x), k, w.said);
    var e := C.ServerVisit(Ask(q.send, q.db, {}), q.addr, 0,
                           Routes(env, w.s.d.servers, w.s.d.served, w.s.d.generation));
    JointIsLive(rows, d);
    if Attend(o.x, k, e.q, e.route).Attended? {
      C.SessionVisit(env, rows, d, e);
    }
    o' := AfterAttend(env, w.s, q, id, o.x).0;
  }

  /** The step of a server that knows the socket leads to a holder that fits again. */
  lemma HolderKept(env: Env, rows: seq<Character>, id: SockId, w: World, e: Event, o: Owner) returns (o': Owner)
    requires Inv(env, w.s) && Holds(w.s, id, o) && id in w.s.d.net && Fits(rows, w, id, o) && UniqueIds(rows)
    requires Fair(w.s, e, rows, id) && Step(env, w.s, e).Next?
    ensures var t := Step(env, w.s, e).s; id in t.d.net && Holds(t, id, o') && Fits(rows, w.(s := t), id, o')
  {
    hide Inv, Fits, Holds, Touches, UniqueIds, StepScan, StepConnected, StepAcceptor, StepIncoming;
    if !Touches(w.s, e, id) {
      QuietStep(env, w.s, e, id, o);
      SameFits(rows, w, Step(env, w.s, e).s, id, o);
      o' := o;
    } else if e.ScanOne? {
      o' := ScanFits(env, rows, id, w, e.q, o);
    } else {
      TouchKinds(w.s, e, id);
      o' := ServeFits(env, rows, id, w, e.q, o);
    }
  }

  lemma ServerKeeps(env: Env, rows: seq<Character>, id: SockId, w: World, e: Event)
    requires Good(env, rows, id, w) && UniqueIds(rows) && Fair(w.s, e, rows, id) && Step(env, w.s, e).Next?
    ensures Good(env, rows, id, w.(s := Step(env, w.s, e).s))
  {
    hide Inv, Reachable, Fits, Holds, Fair, UniqueIds, StepScan, StepConnected, StepAcceptor, StepIncoming;
    var t := Step(env, w.s, e).s;
    ReachableInv(env, w.s);
    Go(env, w.s, e, t);
    if id in w.s.d.net {
      var o :| Holds(w.s, id, o) && Fits(rows, w, id, o);
      var o' := HolderKept(env, rows, id, w, e, o);
    } else if e == AcceptSocket(id) {
      JustAccepted(w.s, id);
      DialledFits(rows, w.(s := t), id);
    } else {
      NetGrows(env, w.s, e, id);
    }
  }

  lemma TouchKinds(s: Sys, e: Event, id: SockId)
    requires Touches(s, e, id)
    ensures e.Arrive? || e.Break? || e.ScanOne? || e.ServeOne?
  {
  }

  lemma SameFits(rows: seq<Character>, w: World, t: Sys, id: SockId, o: Owner)
    requires id in w.s.d.net && id in t.d.net && t.d.net[id] == w.s.d.net[id] && Fits(rows, w, id, o)
    ensures Fits(rows, w.(s := t), id, o)
  {
    hide C.Joint;
  }

  // --- Client steps ---

  /** A client step puts at most one message on the socket and changes nothing else there. */
  lemma OneMessage(env: Env, rows: seq<Character>, d: C.Duo, e: C.Event)
    requires !e.ServerVisit? && C.Step(env, rows, d, e).Next?
    ensures var d' := C.Step(env, rows, d, e).d;
            d'.side == d.side && (d'.k == d.k || exists m :: d'.k == d.k.(inbox := d.k.inbox + [m]))
  {
  }

  /** The step does not depend on who holds the other end. */
  lemma SideIsUnused(env: Env, rows: seq<Character>, d: C.Duo, side: C.Side, e: C.Event)
    requires !e.ServerVisit?
    ensures var r, r' := C.Step(env, rows, d, e), C.Step(env, rows, d.(side := side), e);
            r.Off? == r'.Off? && (r.Next? ==> r'.d == r.d.(side := side))
  {
    hide C.React, C.Pressed;
  }

  lemma ClientKeeps(env: Env, rows: seq<Character>, id: SockId, w: World, e: C.Event)
    requires Good(env, rows, id, w) && UniqueIds(rows) && WorldStep(env, rows, id, w, ByClient(e)).Some?
    ensures Good(env, rows, id, WorldStep(env, rows, id, w, ByClient(e)).value)
  {
    hide Reachable, Fits, Holds, UniqueIds, C.Step;
    var w' := WorldStep(env, rows, id, w, ByClient(e)).value;
    var o :| Holds(w.s, id, o) && Fits(rows, w, id, o);
    var any := C.AsConnection(NewConnection(id));
    OneMessage(env, rows, C.Duo(w.client, any, w.s.d.net[id], w.said), e);
    if w'.s.d.net[id] == w.s.d.net[id] {
      assert w'.s.d.net == w.s.d.net && w'.s == w.s;
    } else {
      var m :| w'.s.d.net[id] == w.s.d.net[id].(inbox := w.s.d.net[id].inbox + [m]);
      Go(env, w.s, Arrive(id, m), w'.s);
      ArrivalTouch(w.s, Arrive(id, m), id, o);
    }
    ClientFits(env, rows, id, w, w', e, o);
  }

  lemma ClientFits(env: Env, rows: seq<Character>, id: SockId, w: World, w': World, e: C.Event, o: Owner)
    requires id in w.s.d.net && Fits(rows, w, id, o) && UniqueIds(rows)
    requires WorldStep(env, rows, id, w, ByClient(e)) == Some(w')
    ensures Fits(rows, w', id, o)
  {
    hide C.Step, C.Joint, UniqueIds;
    var any := C.AsConnection(NewConnection(id));
    var d := C.Duo(w.client, any, w.s.d.net[id], w.said);
    var side := if o.OfConnection? then C.AsConnection(o.c) else C.AsSession(o.x);
    SideIsUnused(env, rows, d, side, e);
    C.StepKeeps(env, rows, d.(side := side), e);
    OneMessage(env, rows, d, e);
  }

  // --- Runs ---

  lemma {:induction false} WorldGood(
    env: Env, rows: seq<Character>, id: SockId, cl: C.Client, t: seq<World>, es: seq<WorldEvent>, k: nat)
    requires IsWorldRun(env, rows, id, cl, t, es) && UniqueIds(rows) && k < |t|
    ensures Good(env, rows, id, t[k])
  {
    hide Good, WorldStep, UniqueIds;
    if k == 0 {
      StartIsGood(env, rows, id, cl);
    } else {
      WorldGood(env, rows, id, cl, t, es, k - 1);
      assert WorldStep(env, rows, id, t[k - 1], es[k - 1]) == Some(t[k]);
      StepIsGood(env, rows, id, t[k - 1], es[k - 1]);
    }
  }

  lemma StartIsGood(env: Env, rows: seq<Character>, id: SockId, cl: C.Client)
    ensures Good(env, rows, id, World(Boot(env), C.Calling(cl), []))
  {
    Booted(env);
  }

  lemma StepIsGood(env: Env, rows: seq<Character>, id: SockId, w: World, e: WorldEvent)
    requires Good(env, rows, id, w) && UniqueIds(rows) && WorldStep(env, rows, id, w, e).Some?
    ensures Good(env, rows, id, WorldStep(env, rows, id, w, e).value)
  {
    hide Good, UniqueIds, Step, Fair;
    match e
    case ByServer(e) => ServerKeeps(env, rows, id, w, e);
    case ByClient(e) => ClientKeeps(env, rows, id, w, e);
  }

  /**
   * In every run of the whole server, with any other peers and any interleaving of its threads: a client that is
   * playing has a session on the server, at its socket and under its username, that records its current
   * character; that character is a row of the table and the session's player owns it.
   */
  lemma PlayingAgreesInRuns(
    env: Env, rows: seq<Character>, id: SockId, cl: C.Client, t: seq<World>, es: seq<WorldEvent>, k: nat)
    requires IsWorldRun(env, rows, id, cl, t, es) && UniqueIds(rows) && k < |t| && t[k].client.phase.Playing?
    ensures exists x, ch ::
              && Held(t[k].s, x) && x.socket == id && x.username == t[k].client.username
              && t[k].client.current.Some? && x.characterID == t[k].client.current.value.id
              && ch in rows && ch.id == x.characterID && ch.playerID == x.playerID
  {
    WorldGood(env, rows, id, cl, t, es, k);
    hide IsWorldRun, C.Joint, Reachable, Holds;
    var o :| Holds(t[k].s, id, o) && Fits(rows, t[k], id, o);
    var side := if o.OfConnection? then C.AsConnection(o.c) else C.AsSession(o.x);
    C.JointPlayingAgrees(rows, C.Duo(t[k].client, side, t[k].s.d.net[id], t[k].said));
    SessionIsHeld(t[k].s, id, o.x);
  }

  lemma SessionIsHeld(s: Sys, id: SockId, x: Session)
    requires Holds(s, id, OfSession(x))
    ensures Held(s, x) && x.socket == id
  {
  }

  /** Likewise, a client that hung up was given up by the server as well. */
  lemma HangUpAgreesInRuns(
    env: Env, rows: seq<Character>, id: SockId, cl: C.Client, t: seq<World>, es: seq<WorldEvent>, k: nat)
    requires IsWorldRun(env, rows, id, cl, t, es) && UniqueIds(rows) && k < |t| && t[k].client.phase.HungUp?
    ensures exists c :: Holds(t[k].s, id, OfConnection(c)) && c.state.Done?
  {
    WorldGood(env, rows, id, cl, t, es, k);
    hide IsWorldRun, Reachable, Holds;
    var o :| Holds(t[k].s, id, o) && Fits(rows, t[k], id, o);
    assert o.OfConnection?;
  }
}
