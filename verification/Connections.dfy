/** What is true of every incoming connection, and of every socket's conversation, in every reachable state. */
module Connections {
  import opened Prelude
  import opened Domain
  import opened Handlers
  import opened LoginData
  import opened Threads
  import opened Ownership

  /** A connection that no thread is in the middle of: its socket is gone only when it is done. */
  ghost predicate AtRest(net: map<SockId, Sock>, c: Connection) {
    && Coherent(c)
    && (c.socket.None? ==> c.state.Done?)
    && (c.socket.Some? ==> c.socket.value in net && Sound(c, net[c.socket.value]))
  }

  /** The connection whose handler `processIncoming` is in the middle of. */
  predicate Busy(i: IPc, x: int) {
    !i.IIdle? && !i.IScan? && i.i == x
  }

  ghost predicate AllAtRest(d: Data, i: IPc) {
    forall x :: 0 <= x < |d.incoming| && !Busy(i, x) ==> AtRest(d.net, d.incoming[x])
  }

  /** The busy connection: its socket has moved out, or it is about to become a map server. */
  ghost predicate BusyOk(d: Data, i: IPc) {
    match i
    case IIdle => true
    case IScan(n) => n <= |d.incoming|
    case IWantSessions(n, s) => MovedOut(d, n) && s.socket in d.net && Welcome(d.net[s.socket])
    case IHoldSessions(n, s) => MovedOut(d, n) && s.socket in d.net && Welcome(d.net[s.socket])
    case IFinish(n) => MovedOut(d, n)
    case IWantMaps(n) => Enrolling(d, n)
    case IHoldMaps(n) => Enrolling(d, n)
  }

  ghost predicate MovedOut(d: Data, n: nat) {
    n < |d.incoming| && d.incoming[n].socket.None? && Coherent(d.incoming[n].(state := Done))
  }

  ghost predicate Enrolling(d: Data, n: nat) {
    && n < |d.incoming| && Coherent(d.incoming[n]) && d.incoming[n].state.MapWaitAck?
    && d.incoming[n].socket.Some? && d.incoming[n].socket.value in d.net
    && Welcome(d.net[d.incoming[n].socket.value])
  }

  /** A socket still in the acceptor's hands has carried nothing yet. */
  ghost predicate PendingOk(s: Sys) {
    !s.a.AIdle? ==> s.a.id in s.d.net && Unused(s.d.net[s.a.id])
  }

  predicate Unused(k: Sock) {
    k.outbox == [] && k.read == 0 && k.unanswered == 0
  }

  ghost predicate ConnsOk(s: Sys) {
    AllAtRest(s.d, s.i) && BusyOk(s.d, s.i) && PendingOk(s)
  }

  /** The environment touches only what a socket has yet to read and its error flag. */
  lemma EnvironmentKeepsConns(s: Sys, e: Event)
    requires e.Arrive? || e.Break?
    requires ConnsOk(s) && StepEnvironment(s, e).Next?
    ensures ConnsOk(StepEnvironment(s, e).s)
  {
  }

  lemma NewConnectionAtRest(net: map<SockId, Sock>, id: SockId)
    requires id in net && Unused(net[id])
    ensures AtRest(net, NewConnection(id))
  {
  }

  lemma AcceptorKeepsConns(s: Sys, e: Event)
    requires e.AcceptSocket? || e.AcceptorLock? || e.AcceptorPush?
    requires ConnsOk(s) && LocksOk(s) && StepAcceptor(s, e).Next?
    ensures ConnsOk(StepAcceptor(s, e).s)
  {
    hide Coherent, Sound;
    if e.AcceptorPush? {
      NewConnectionAtRest(s.d.net, s.a.id);
    }
  }

  lemma ClosedAtRest(net: map<SockId, Sock>, c: Connection)
    ensures Coherent(c) ==> Coherent(c.(socket := None, state := Done))
    ensures Coherent(c) ==> Coherent(c.(state := Done)) && Coherent(c.(state := Done, socket := None, maps := Some([])))
    ensures AtRest(net, c) ==> AtRest(net, c.(state := Done))
  {
  }

  /** A visit cannot fail, and leaves its connection at rest or ready for the nested section. */
  lemma VisitKeepsConns(env: Env, s: Sys, q: Fate)
    requires s.i.IScan? && s.i.i < |s.d.incoming| && ConnsOk(s) && Exclusive(s)
    ensures !Visit(env, s.d, s.i.i, q).Fault?
    ensures StepScan(env, s, q).Next? ==> ConnsOk(StepScan(env, s, q).s)
  {
    hide Dispatch, Coherent, Sound, Reported;
    var d, i := s.d, s.i.i;
    var c := d.incoming[i];
    assert AtRest(d.net, c);
    ClosedAtRest(d.net, c);
    if !c.state.Done? {
      var k := d.net[c.socket.value];
      var a := Ask(q.send, q.db, d.served.Keys);
      DispatchKeepsSound(env, c, k, a);
      DispatchKeepsSocket(env, c, k, a);
      ClosedAtRest(d.net, Dispatch(env, c, k, a).conn);
    }
  }

  lemma EnlistKeepsConns(d: Data, i: nat, spare: nat)
    requires i < |d.incoming| && Enrollable(d.incoming[i]) && Coherent(d.incoming[i]) && d.incoming[i].state.MapWaitAck?
    requires forall x :: 0 <= x < |d.incoming| && x != i ==> AtRest(d.net, d.incoming[x])
    ensures var e := Enlist(d, i, spare);
            && e.net == d.net && MovedOut(e, i)
            && |e.incoming| == |d.incoming| && (forall x :: 0 <= x < |d.incoming| && x != i ==> AtRest(e.net, e.incoming[x]))
  {
    hide Sound, EmplaceAll;
  }

  lemma IncomingKeepsConns(env: Env, s: Sys, e: Event)
    requires e.ScanStart? || e.ScanEnd? || e.LockSessions? || e.Append? || e.LockMaps? || e.Register? || e.Finish?
    requires ConnsOk(s)
    ensures !StepIncoming(env, s, e).Crashed?
    ensures StepIncoming(env, s, e).Next? ==> ConnsOk(StepIncoming(env, s, e).s)
  {
    hide Sound, Enlist;
    match e
    case ScanEnd(purge) =>
      forall k | 0 <= k < |Filter(NotDone, s.d.incoming)| && s.i.IScan?
        ensures AtRest(s.d.net, Filter(NotDone, s.d.incoming)[k])
      {
        var y := FilterPlace(NotDone, s.d.incoming, k);
      }
    case Register(spare) =>
      if s.i.IHoldMaps? {
        EnlistKeepsConns(s.d, s.i.i, spare);
      }
    case _ =>
  }

  lemma ConnectedKeepsConns(env: Env, s: Sys, e: Event)
    requires e.PassStart? || e.ServeOne? || e.PassEnd?
    requires ConnsOk(s) && Exclusive(s) && StepConnected(env, s, e).Next?
    ensures ConnsOk(StepConnected(env, s, e).s)
  {
    hide Attend, Coherent, Sound, Routes;
    if e.ServeOne? {
      var session := s.d.sessions[s.c.j].value;
      AttendKeeps(session, s.d.net[session.socket], Ask(e.q.send, e.q.db, {}),
                  Routes(env, s.d.servers, s.d.served, s.d.generation));
    }
  }

  lemma ConnsKept(env: Env, s: Sys, e: Event)
    requires ConnsOk(s) && LocksOk(s) && Exclusive(s) && Step(env, s, e).Next?
    ensures ConnsOk(Step(env, s, e).s)
  {
    hide StepEnvironment, StepAcceptor, StepScan, StepIncoming, StepConnected, ConnsOk, Exclusive, LocksOk;
    if e.Arrive? || e.Break? {
      EnvironmentKeepsConns(s, e);
    } else if e.AcceptSocket? || e.AcceptorLock? || e.AcceptorPush? {
      AcceptorKeepsConns(s, e);
    } else if e.ScanOne? {
      ScanKeepsConns(env, s, e.q);
    } else if e.PassStart? || e.ServeOne? || e.PassEnd? {
      ConnectedKeepsConns(env, s, e);
    } else {
      IncomingKeepsConns(env, s, e);
    }
  }

  lemma ScanKeepsConns(env: Env, s: Sys, q: Fate)
    requires ConnsOk(s) && Exclusive(s) && StepScan(env, s, q).Next?
    ensures ConnsOk(StepScan(env, s, q).s)
  {
    hide ConnsOk, Exclusive, Visit;
    VisitKeepsConns(env, s, q);
  }

  // --- Conversations ---

  /** On every socket ever accepted: failed responses count down, and the login phase is short. */
  ghost predicate TalkOk(d: Data) {
    forall id :: id in d.net ==> Decreasing(d.net[id].outbox) && d.net[id].read <= 3 + d.net[id].unanswered
  }

  /** Sockets owned by a session or a map server were never told that no attempts remain. */
  ghost predicate WelcomeOk(s: Sys) {
    && (forall j :: 0 <= j < |s.d.sessions| && s.d.sessions[j].Some? ==>
          s.d.sessions[j].value.socket in s.d.net && Welcome(s.d.net[s.d.sessions[j].value.socket]))
    && (forall m :: 0 <= m < |s.d.servers| ==>
          s.d.servers[m].socket in s.d.net && Welcome(s.d.net[s.d.servers[m].socket]))
  }

  lemma VisitKeepsTalk(env: Env, s: Sys, q: Fate)
    requires s.i.IScan? && s.i.i < |s.d.incoming| && ConnsOk(s) && Exclusive(s)
    requires TalkOk(s.d) && WelcomeOk(s) && StepScan(env, s, q).Next?
    ensures var t := StepScan(env, s, q).s; TalkOk(t.d) && WelcomeOk(t)
  {
    hide Dispatch, Coherent, Reported, Decreasing, Welcome;
    var d, i := s.d, s.i.i;
    var c := d.incoming[i];
    assert AtRest(d.net, c);
    if !c.state.Done? {
      var k := d.net[c.socket.value];
      var a := Ask(q.send, q.db, d.served.Keys);
      DispatchKeepsSound(env, c, k, a);
    }
  }

  lemma ConnectedKeepsTalk(env: Env, s: Sys, e: Event)
    requires e.PassStart? || e.ServeOne? || e.PassEnd?
    requires TalkOk(s.d) && WelcomeOk(s) && StepConnected(env, s, e).Next?
    ensures var t := StepConnected(env, s, e).s; TalkOk(t.d) && WelcomeOk(t)
  {
    hide Attend, Routes, Decreasing, Welcome;
    if e.ServeOne? {
      var session := s.d.sessions[s.c.j].value;
      AttendKeeps(session, s.d.net[session.socket], Ask(e.q.send, e.q.db, {}),
                  Routes(env, s.d.servers, s.d.served, s.d.generation));
    } else if e.PassEnd? {
      forall k | 0 <= k < |Filter(IsLive, s.d.sessions)| && Filter(IsLive, s.d.sessions)[k].Some?
        ensures var id := Filter(IsLive, s.d.sessions)[k].value.socket; id in s.d.net && Welcome(s.d.net[id])
      {
        var y := FilterPlace(IsLive, s.d.sessions, k);
      }
    }
  }
}
