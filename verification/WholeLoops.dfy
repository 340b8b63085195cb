/** The loops of the server object are runs of the thread system, so what holds of every run holds of them. */
module WholeLoops {
  import opened Prelude
  import opened Domain
  import opened Handlers
  import opened LoginData
  import opened Threads
  import opened Ownership
  import opened Connections
  import opened Sessions
  import opened Routing
  import opened Runs
  import opened LoginServer

  /** Both processing loops are between iterations and no lock is held. */
  ghost predicate Between(s: Sys) {
    s.i.IIdle? && s.c.CIdle? && s.incomingLock.None? && s.sessionLock.None? && s.mapLock.None?
  }

  ghost function AtTurn(s: Sys, d: Data, i: nat): Sys {
    s.(d := d, i := IScan(i), incomingLock := Some(Incoming))
  }

  ghost function AtSession(s: Sys, d: Data, j: nat, cleared: bool): Sys {
    s.(d := d, c := CScan(j, cleared), sessionLock := Some(Connected))
  }

  lemma ReachableInv(env: Env, s: Sys)
    requires Reachable(env, s)
    ensures Inv(env, s)
  {
    hide Inv, Step;
    var t, es :| IsRun(env, t, es) && t[|es|] == s;
    RunInv(env, t, es, |es|);
  }

  // --- Scans ---

  lemma SessionSection(env: Env, s: Sys, d: Data, i: nat, x: Session)
    requires Between(s) && i < |d.incoming|
    requires Reachable(env, AtTurn(s, d, i).(i := IWantSessions(i, x)))
    ensures Reachable(env, AtTurn(s, Close(AppendSession(d, x), i), i + 1))
  {
    hide Reachable;
    var s1 := AtTurn(s, d, i).(i := IWantSessions(i, x));
    var s2 := s1.(i := IHoldSessions(i, x), sessionLock := Some(Incoming));
    var s3 := AtTurn(s, AppendSession(d, x), i).(i := IFinish(i));
    Go(env, s1, LockSessions, s2);
    Go(env, s2, Append, s3);
    Go(env, s3, Finish, AtTurn(s, Close(AppendSession(d, x), i), i + 1));
  }

  lemma MapSection(env: Env, s: Sys, d: Data, i: nat, spare: nat)
    requires Between(s) && i < |d.incoming| && Enrollable(d.incoming[i])
    requires Reachable(env, AtTurn(s, d, i).(i := IWantMaps(i)))
    ensures i < |Enlist(d, i, spare).incoming|
    ensures Reachable(env, AtTurn(s, Close(Enlist(d, i, spare), i), i + 1))
  {
    EnlistFrame(d, i, spare);
    hide Reachable, Enlist, Enrollable;
    var s1 := AtTurn(s, d, i).(i := IWantMaps(i));
    var s2 := s1.(i := IHoldMaps(i), mapLock := Some(Incoming));
    var s3 := AtTurn(s, Enlist(d, i, spare), i).(i := IFinish(i));
    Go(env, s1, LockMaps, s2);
    Go(env, s2, Register(spare), s3);
    Go(env, s3, Finish, AtTurn(s, Close(Enlist(d, i, spare), i), i + 1));
  }

  /** One turn of the object is one to four steps of the incoming thread. */
  lemma TurnReaches(env: Env, s: Sys, d: Data, i: nat, q: Fate)
    requires Between(s) && Reachable(env, AtTurn(s, d, i))
    requires i < |d.incoming| && Ready(d, i) && FreshAddr(d, q.addr)
    ensures Reachable(env, AtTurn(s, Turn(env, d, i, q), i + 1))
  {
    hide Reachable, Visit, Turn, Ready, Enlist, AppendSession, Close, FreshAddr;
    TurnIsVisit(env, d, i, q);
    var here := AtTurn(s, d, i);
    match Visit(env, d, i, q)
    case Continue(d') => Go(env, here, ScanOne(q), AtTurn(s, d', i + 1));
    case WantSession(d', x) =>
      Go(env, here, ScanOne(q), AtTurn(s, d', i).(i := IWantSessions(i, x)));
      SessionSection(env, s, d', i, x);
    case WantServer(d') =>
      Go(env, here, ScanOne(q), AtTurn(s, d', i).(i := IWantMaps(i)));
      MapSection(env, s, d', i, q.spare);
  }

  /** The allocator hands out an address that no live session has. */
  ghost predicate FreshScan(env: Env, d: Data, qs: seq<Fate>)
    requires AllReady(d) && |d.incoming| <= |qs|
  {
    forall n :: 0 <= n < |d.incoming| ==> FreshAddr(Turns(env, d, n, qs), qs[n].addr)
  }

  lemma {:induction false} TurnsReach(env: Env, s: Sys, d: Data, n: nat, qs: seq<Fate>)
    requires Between(s) && Reachable(env, AtTurn(s, d, 0))
    requires AllReady(d) && n <= |d.incoming| <= |qs| && FreshScan(env, d, qs)
    ensures Reachable(env, AtTurn(s, Turns(env, d, n, qs), n))
  {
    hide Reachable, Turn, Ready, FreshAddr;
    if n > 0 {
      TurnsReach(env, s, d, n - 1, qs);
      var before := Turns(env, d, n - 1, qs);
      assert Ready(before, n - 1);
      TurnReaches(env, s, before, n - 1, qs[n - 1]);
    }
  }

  /** In a reachable state between iterations, every connection is ready for its turn. */
  lemma ReachableIsReady(env: Env, s: Sys)
    requires Reachable(env, s) && Between(s)
    ensures AllReady(s.d)
  {
    hide Reachable, Inv;
    ReachableInv(env, s);
    InvParts(env, s);
    forall x | 0 <= x < |s.d.incoming|
      ensures Ready(s.d, x)
    {
      assert !Busy(s.i, x) && AtRest(s.d.net, s.d.incoming[x]);
    }
  }

  /** A whole iteration of `processIncoming` leads from a reachable state to a reachable state. */
  lemma ScanIsRun(env: Env, s: Sys, qs: seq<Fate>, purge: bool)
    requires Reachable(env, s) && Between(s)
    ensures AllReady(s.d)
    ensures |s.d.incoming| <= |qs| && FreshScan(env, s.d, qs) ==>
              var r := Turns(env, s.d, |s.d.incoming|, qs); Reachable(env, s.(d := if purge then Purge(r) else r))
  {
    ReachableIsReady(env, s);
    hide Reachable, Ready, Turns, Purge;
    if |s.d.incoming| <= |qs| && FreshScan(env, s.d, qs) {
      var n := |s.d.incoming|;
      var r := Turns(env, s.d, n, qs);
      Go(env, s, ScanStart, AtTurn(s, s.d, 0));
      TurnsReach(env, s, s.d, n, qs);
      Go(env, AtTurn(s, r, n), ScanEnd(purge), s.(d := if purge then Purge(r) else r));
    }
  }

  // --- Passes ---

  lemma {:induction false} PassReaches(env: Env, s: Sys, d: Data, n: nat, qs: seq<Fate>)
    requires Between(s) && Reachable(env, AtSession(s, d, 0, false)) && PassReady(d, 0) && n <= |d.sessions| <= |qs|
    ensures Reachable(env, AtSession(s, Pass(env, d, n, qs).0, n, Pass(env, d, n, qs).1))
  {
    hide Reachable, Serve;
    if n > 0 {
      PassReaches(env, s, d, n - 1, qs);
      var before := Pass(env, d, n - 1, qs);
      ServeKeepsPassReady(env, before.0, n - 1, qs[n - 1]);
      var after := Pass(env, d, n, qs);
      Go(env, AtSession(s, before.0, n - 1, before.1), ServeOne(qs[n - 1]), AtSession(s, after.0, n, after.1));
    }
  }

  /** In a reachable state between iterations, a pass is safe unless a map server pointer dangles. */
  lemma ReachablePasses(env: Env, s: Sys)
    requires Reachable(env, s) && Between(s)
    ensures PassReady(s.d, 0) <==> |s.d.servers| <= Room(env)
  {
    hide Reachable, Inv;
    ReachableInv(env, s);
    InvParts(env, s);
    PointersLiveIff(env, s.d);
    ServedInRange(env, s.d);
    NoneNull(s);
  }

  lemma ServedInRange(env: Env, d: Data)
    requires CatalogOk(env, d)
    ensures forall n :: n in d.served ==> d.served[n].index < |d.servers|
  {
    forall n | n in d.served
      ensures d.served[n].index < |d.servers|
    {
      assert Stores(d.servers, d.served[n].index, n);
    }
  }

  lemma NoneNull(s: Sys)
    requires SessionsOk(s) && Exclusive(s) && Between(s)
    ensures forall j :: 0 <= j < |s.d.sessions| ==> s.d.sessions[j].Some? && s.d.sessions[j].value.socket in s.d.net
  {
    hide AddrsOk, IndexOk, GuidsOk;
  }

  /**
   * A whole iteration of `processConnected` leads from a reachable state to a reachable state, as long as no
   * more map servers registered than places were reserved.
   */
  lemma PassIsRun(env: Env, s: Sys, qs: seq<Fate>)
    requires Reachable(env, s) && Between(s) && |s.d.servers| <= Room(env)
    ensures PassReady(s.d, 0)
    ensures |s.d.sessions| <= |qs| ==>
              var r := Pass(env, s.d, |s.d.sessions|, qs); Reachable(env, s.(d := if r.1 then Sweep(r.0) else r.0))
  {
    ReachablePasses(env, s);
    hide Reachable, PassReady, Pass, Sweep;
    if |s.d.sessions| <= |qs| {
      var n := |s.d.sessions|;
      var r := Pass(env, s.d, n, qs);
      Go(env, s, PassStart, AtSession(s, s.d, 0, false));
      PassReaches(env, s, s.d, n, qs);
      Go(env, AtSession(s, r.0, n, r.1), PassEnd, s.(d := if r.1 then Sweep(r.0) else r.0));
    }
  }
}
