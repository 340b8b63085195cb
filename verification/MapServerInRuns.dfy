/** One map server at a socket of the whole login server, among any other peers, under any interleaving. */
module MapServerInRuns {
  import opened Prelude
  import opened Domain
  import opened Handlers
  import opened LoginData
  import opened Threads
  import opened Runs
  import opened WholeLoops
  import opened SocketViews
  import Ownership
  import R = Registration

  /** The server, and the map server whose socket it knows by some id; `said` is what that one put on it. */
  datatype World = World(s: Sys, peer: R.Peer, said: seq<Inbound>)

  datatype WorldEvent = ByServer(step: Event) | ByPeer(action: R.Event)

  /** On this socket only the map server's messages arrive. Sends may have any fate, and the socket may fail. */
  ghost predicate Fair(e: Event, id: SockId) {
    e.Arrive? ==> e.id != id
  }

  predicate OfPeer(e: R.Event) {
    e.PeerReads? || e.PeerGivesUp? || e.PeerHangsUp?
  }

  /** The map server's own step needs only the socket, whoever holds the other end. */
  ghost function PeerStep(env: Env, v: R.Details, id: SockId, w: World, e: R.Event): R.Result
    requires id in w.s.d.net
  {
    R.Step(env, v, R.Duo(w.peer, R.AsConnection(NewConnection(id)), w.s.d.net[id], w.said), e)
  }

  ghost function WorldStep(env: Env, v: R.Details, id: SockId, w: World, e: WorldEvent): Option<World> {
    match e
    case ByServer(e) => if Fair(e, id) && Step(env, w.s, e).Next? then Some(w.(s := Step(env, w.s, e).s)) else None
    case ByPeer(e) =>
      if id !in w.s.d.net || !OfPeer(e) || PeerStep(env, v, id, w, e).Off? then None
      else
        var d := PeerStep(env, v, id, w, e).d;
        Some(World(w.s.(d := w.s.d.(net := w.s.d.net[id := d.k])), d.peer, d.said))
  }

  ghost predicate IsWorldRun(env: Env, v: R.Details, id: SockId, t: seq<World>, es: seq<WorldEvent>) {
    && |t| == |es| + 1 && t[0] == World(Boot(env), R.WAITING, [])
    && forall k :: 0 <= k < |es| ==> WorldStep(env, v, id, t[k], es[k]) == Some(t[k + 1])
  }

  /** Map server, socket and holder, as the two-party protocol sees them. */
  ghost predicate Fits(env: Env, v: R.Details, w: World, id: SockId, o: Owner)
    requires id in w.s.d.net
  {
    match o
    case OfConnection(c) => R.InStep(env, v, R.Duo(w.peer, R.AsConnection(c), w.s.d.net[id], w.said))
    case OfServer(m) => R.InStep(env, v, R.Duo(w.peer, R.AsServer(m), w.s.d.net[id], w.said))
    case _ => false
  }

  ghost predicate Good(env: Env, v: R.Details, id: SockId, w: World) {
    && Reachable(env, w.s)
    && (id !in w.s.d.net ==> w.peer == R.WAITING && w.said == [])
    && (id in w.s.d.net ==> exists o :: Holds(w.s, id, o) && Fits(env, v, w, id, o))
  }

  // --- Server steps ---

  lemma ScanFits(env: Env, v: R.Details, id: SockId, w: World, q: Fate, o: Owner) returns (o': Owner)
    requires Inv(env, w.s) && Holds(w.s, id, o) && Fits(env, v, w, id, o)
    requires Touches(w.s, ScanOne(q), id) && StepScan(env, w.s, q).Next?
    ensures var t := StepScan(env, w.s, q).s; id in t.d.net && Holds(t, id, o') && Fits(env, v, w.(s := t), id, o')
  {
    hide Inv, Holds, Touches, StepScan, R.InStep;
    HeldIsKnown(w.s, id, o);
    ScanTouch(env, w.s, q, id, o);
    var k, a := w.s.d.net[id], Ask(q.send, q.db, w.s.d.served.Keys);
    var d := R.Duo(w.peer, R.AsConnection(o.c), k, w.said);
    R.VisitKeeps(env, v, d, a);
    if o.c.state.Done? {
      R.QuietVisit(env, o.c, k, a);
    }
    hide Dispatch;
    o' := AfterVisit(env, w.s, q, id, o.c).0;
  }

  /** A socket failure reaches the two-party protocol as its own step. */
  lemma BreakFits(env: Env, v: R.Details, id: SockId, w: World, o: Owner)
    requires Holds(w.s, id, o) && id in w.s.d.net && Fits(env, v, w, id, o)
    ensures StepEnvironment(w.s, Break(id)).Next?
    ensures var t := StepEnvironment(w.s, Break(id)).s; id in t.d.net && Holds(t, id, o) && Fits(env, v, w.(s := t), id, o)
  {
    hide Holds, R.InStep;
    ArrivalTouch(w.s, Break(id), id, o);
    var side := if o.OfConnection? then R.AsConnection(o.c) else R.AsServer(o.m);
    R.PeerKeeps(env, v, R.Duo(w.peer, side, w.s.d.net[id], w.said), R.SocketFails);
  }

  lemma SameFits(env: Env, v: R.Details, w: World, t: Sys, id: SockId, o: Owner)
    requires id in w.s.d.net && id in t.d.net && t.d.net[id] == w.s.d.net[id] && Fits(env, v, w, id, o)
    ensures Fits(env, v, w.(s := t), id, o)
  {
    hide R.InStep;
  }

  lemma TouchKinds(s: Sys, e: Event, id: SockId)
    requires Touches(s, e, id) && Fair(e, id)
    ensures e == Break(id) || e.ScanOne? || e.ServeOne?
  {
  }

  lemma NotServed(env: Env, v: R.Details, id: SockId, w: World, q: Fate, o: Owner)
    requires Inv(env, w.s) && Holds(w.s, id, o) && id in w.s.d.net && Fits(env, v, w, id, o)
    ensures !Touches(w.s, ServeOne(q), id)
  {
    hide Inv, Holds, Touches, R.InStep;
    if Touches(w.s, ServeOne(q), id) {
      ServedOwner(env, w.s, q, id, o);
    }
  }

  /** The step of a server that knows the socket leads to a holder that fits again. */
  lemma HolderKept(env: Env, v: R.Details, id: SockId, w: World, e: Event, o: Owner) returns (o': Owner)
    requires Inv(env, w.s) && Holds(w.s, id, o) && id in w.s.d.net && Fits(env, v, w, id, o)
    requires Fair(e, id) && Step(env, w.s, e).Next?
    ensures var t := Step(env, w.s, e).s; id in t.d.net && Holds(t, id, o') && Fits(env, v, w.(s := t), id, o')
  {
    hide Inv, Fits, Holds, Touches, StepScan, StepConnected, StepAcceptor, StepIncoming, StepEnvironment;
    o' := o;
    if !Touches(w.s, e, id) {
      QuietStep(env, w.s, e, id, o);
      SameFits(env, v, w, Step(env, w.s, e).s, id, o);
    } else {
      TouchKinds(w.s, e, id);
      if e.ScanOne? {
        o' := ScanFits(env, v, id, w, e.q, o);
      } else if e.ServeOne? {
        NotServed(env, v, id, w, e.q, o);
      } else {
        BreakFits(env, v, id, w, o);
      }
    }
  }

  lemma ConnectedFits(env: Env, v: R.Details, w: World, id: SockId)
    requires id in w.s.d.net && w.s.d.net[id] == NEW_SOCK && w.peer == R.WAITING
    ensures Fits(env, v, w, id, OfConnection(NewConnection(id)))
  {
  }

  lemma ServerKeeps(env: Env, v: R.Details, id: SockId, w: World, e: Event)
    requires Good(env, v, id, w) && Fair(e, id) && Step(env, w.s, e).Next?
    ensures Good(env, v, id, w.(s := Step(env, w.s, e).s))
  {
    hide Inv, Reachable, Fits, Holds, StepScan, StepConnected, StepAcceptor, StepIncoming, StepEnvironment;
    var t := Step(env, w.s, e).s;
    ReachableInv(env, w.s);
    Go(env, w.s, e, t);
    if id in w.s.d.net {
      var o :| Holds(w.s, id, o) && Fits(env, v, w, id, o);
      var o' := HolderKept(env, v, id, w, e, o);
    } else if e == AcceptSocket(id) {
      JustAccepted(w.s, id);
      ConnectedFits(env, v, w.(s := t), id);
    } else {
      NetGrows(env, w.s, e, id);
    }
  }

  // --- Steps of the map server ---

  /** A step of the map server puts at most one message on the socket and changes nothing else there. */
  lemma OneMessage(env: Env, v: R.Details, d: R.Duo, e: R.Event)
    requires OfPeer(e) && R.Step(env, v, d, e).Next?
    ensures var d' := R.Step(env, v, d, e).d;
            d'.side == d.side && (d'.k == d.k || exists m :: d'.k == d.k.(inbox := d.k.inbox + [m]))
  {
  }

  /** The step does not depend on who holds the other end. */
  lemma SideIsUnused(env: Env, v: R.Details, d: R.Duo, side: R.Side, e: R.Event)
    requires OfPeer(e)
    ensures var r, r' := R.Step(env, v, d, e), R.Step(env, v, d.(side := side), e);
            r.Off? == r'.Off? && (r.Next? ==> r'.d == r.d.(side := side))
  {
    hide R.React;
  }

  lemma PeerFits(env: Env, v: R.Details, id: SockId, w: World, w': World, e: R.Event, o: Owner)
    requires id in w.s.d.net && Fits(env, v, w, id, o) && WorldStep(env, v, id, w, ByPeer(e)) == Some(w')
    ensures Fits(env, v, w', id, o)
  {
    hide R.Step, R.InStep;
    var d := R.Duo(w.peer, R.AsConnection(NewConnection(id)), w.s.d.net[id], w.said);
    var side := if o.OfConnection? then R.AsConnection(o.c) else R.AsServer(o.m);
    SideIsUnused(env, v, d, side, e);
    R.PeerKeeps(env, v, d.(side := side), e);
    OneMessage(env, v, d, e);
  }

  lemma PeerStepKeeps(env: Env, v: R.Details, id: SockId, w: World, e: R.Event)
    requires Good(env, v, id, w) && WorldStep(env, v, id, w, ByPeer(e)).Some?
    ensures Good(env, v, id, WorldStep(env, v, id, w, ByPeer(e)).value)
  {
    hide Reachable, Fits, Holds, R.Step;
    var w' := WorldStep(env, v, id, w, ByPeer(e)).value;
    var o :| Holds(w.s, id, o) && Fits(env, v, w, id, o);
    OneMessage(env, v, R.Duo(w.peer, R.AsConnection(NewConnection(id)), w.s.d.net[id], w.said), e);
    if w'.s.d.net[id] == w.s.d.net[id] {
      assert w'.s.d.net == w.s.d.net && w'.s == w.s;
    } else {
      var m :| w'.s.d.net[id] == w.s.d.net[id].(inbox := w.s.d.net[id].inbox + [m]);
      Go(env, w.s, Arrive(id, m), w'.s);
      ArrivalTouch(w.s, Arrive(id, m), id, o);
    }
    PeerFits(env, v, id, w, w', e, o);
  }

  // --- Runs ---

  lemma StepIsGood(env: Env, v: R.Details, id: SockId, w: World, e: WorldEvent)
    requires Good(env, v, id, w) && WorldStep(env, v, id, w, e).Some?
    ensures Good(env, v, id, WorldStep(env, v, id, w, e).value)
  {
    hide Good, Step, Fair;
    match e
    case ByServer(e) => ServerKeeps(env, v, id, w, e);
    case ByPeer(e) => PeerStepKeeps(env, v, id, w, e);
  }

  lemma {:induction false} WorldGood(env: Env, v: R.Details, id: SockId, t: seq<World>, es: seq<WorldEvent>, k: nat)
    requires IsWorldRun(env, v, id, t, es) && k < |t|
    ensures Good(env, v, id, t[k])
  {
    hide Good, WorldStep;
    if k == 0 {
      StartIsGood(env, v, id);
    } else {
      WorldGood(env, v, id, t, es, k - 1);
      assert WorldStep(env, v, id, t[k - 1], es[k - 1]) == Some(t[k]);
      StepIsGood(env, v, id, t[k - 1], es[k - 1]);
    }
  }

  lemma StartIsGood(env: Env, v: R.Details, id: SockId)
    ensures Good(env, v, id, World(Boot(env), R.WAITING, []))
  {
    Booted(env);
  }

  /**
   * In every run of the whole server, with any other peers, any fate of every send, and any interleaving of its
   * threads: if the entry at place `n` of `mapServers` holds this map server's socket, then the map server
   * returned success, and the two agree on its details and on the list.
   */
  lemma RegistrationAgreesInRuns(
    env: Env, v: R.Details, id: SockId, t: seq<World>, es: seq<WorldEvent>, k: nat, n: nat)
    requires IsWorldRun(env, v, id, t, es) && k < |t|
    requires n < |t[k].s.d.servers| && t[k].s.d.servers[n].socket == id
    ensures R.Agreement(v, t[k].peer, t[k].s.d.servers[n])
  {
    WorldGood(env, v, id, t, es, k);
    hide IsWorldRun, R.InStep, Reachable, Holds, R.Agreement, Inv;
    ReachableInv(env, t[k].s);
    ServerIsKnown(env, t[k].s, n);
    var o :| Holds(t[k].s, id, o) && Fits(env, v, t[k], id, o);
    InvConserves(env, t[k].s);
    OwnerAt(t[k].s, id, AtServer(n), o);
    R.InStepAgrees(env, v, R.Duo(t[k].peer, R.AsServer(o.m), t[k].s.d.net[id], t[k].said));
  }

  lemma InvConserves(env: Env, s: Sys)
    requires Inv(env, s)
    ensures Ownership.Conserved(s)
  {
  }

  lemma ServerIsKnown(env: Env, s: Sys, n: nat)
    requires Inv(env, s) && n < |s.d.servers|
    ensures s.d.servers[n].socket in s.d.net
  {
    InvParts(env, s);
  }

  /** Whoever returned failure is not in `mapServers`, in any run of the whole server. */
  lemma FailureStaysOutInRuns(
    env: Env, v: R.Details, id: SockId, t: seq<World>, es: seq<WorldEvent>, k: nat, n: nat)
    requires IsWorldRun(env, v, id, t, es) && k < |t| && t[k].peer.phase == R.Returned(false)
    requires n < |t[k].s.d.servers|
    ensures t[k].s.d.servers[n].socket != id
  {
    hide IsWorldRun;
    if t[k].s.d.servers[n].socket == id {
      RegistrationAgreesInRuns(env, v, id, t, es, k, n);
    }
  }
}
