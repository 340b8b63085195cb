/** The three threads of the login server, their locks, and every interleaving of their steps. */
module Threads {
  import opened Prelude
  import opened Domain
  import opened Handlers
  import opened LoginData

  datatype Thread = Acceptor | Incoming | Connected

  /** The accept loop: idle, holding a new socket and wanting `incomingConnectionsMutex`, or holding both. */
  datatype APc = AIdle | AWant(id: SockId) | AHold(id: SockId)

  /** `processIncoming`: idle, at connection `i` of a scan, or inside the nested section for connection `i`. */
  datatype IPc =
    | IIdle
    | IScan(i: nat)
    | IWantSessions(i: nat, s: Session)
    | IHoldSessions(i: nat, s: Session)
    | IWantMaps(i: nat)
    | IHoldMaps(i: nat)
    | IFinish(i: nat)

  /** `processConnected`: idle, or at session `j` of a pass, having cleared some session or not. */
  datatype CPc = CIdle | CScan(j: nat, cleared: bool)

  datatype Sys = Sys(
    d: Data, a: APc, i: IPc, c: CPc,
    incomingLock: Option<Thread>, sessionLock: Option<Thread>, mapLock: Option<Thread>)

  datatype Event =
    | Arrive(id: SockId, m: Inbound)
    | Break(id: SockId)
    | AcceptSocket(id: SockId)
    | AcceptorLock
    | AcceptorPush
    | ScanStart
    | ScanOne(q: Fate)
    | ScanEnd(purge: bool)
    | LockSessions
    | Append
    | LockMaps
    | Register(spare: nat)
    | Finish
    | PassStart
    | ServeOne(q: Fate)
    | PassEnd

  datatype Result = Off | Crashed | Next(s: Sys)

  ghost function Boot(env: Env): Sys {
    Sys(Start(env), AIdle, IIdle, CIdle, None, None, None)
  }

  ghost predicate FreshAddr(d: Data, addr: nat) {
    forall j :: 0 <= j < |d.sessions| && d.sessions[j].Some? ==> d.sessions[j].value.addr != addr
  }

  ghost function StepEnvironment(s: Sys, e: Event): Result
    requires e.Arrive? || e.Break?
  {
    if e.id !in s.d.net then Off
    else
      var k := s.d.net[e.id];
      var k' := if e.Arrive? then k.(inbox := k.inbox + [e.m]) else k.(error := true);
      Next(s.(d := s.d.(net := s.d.net[e.id := k'])))
  }

  ghost function StepAcceptor(s: Sys, e: Event): Result
    requires e.AcceptSocket? || e.AcceptorLock? || e.AcceptorPush?
  {
    if e.AcceptSocket? && s.a.AIdle? && e.id !in s.d.net then
      Next(s.(a := AWant(e.id), d := s.d.(net := s.d.net[e.id := NEW_SOCK])))
    else if e.AcceptorLock? && s.a.AWant? && s.incomingLock.None? then
      Next(s.(a := AHold(s.a.id), incomingLock := Some(Acceptor)))
    else if e.AcceptorPush? && s.a.AHold? then
      Next(s.(a := AIdle, incomingLock := None, d := Accept(s.d, s.a.id)))
    else Off
  }

  ghost function StepScan(env: Env, s: Sys, q: Fate): Result {
    if !s.i.IScan? || s.i.i >= |s.d.incoming| || !FreshAddr(s.d, q.addr) then Off
    else
      match Visit(env, s.d, s.i.i, q)
      case Fault => Crashed
      case Continue(d) => Next(s.(d := d, i := IScan(s.i.i + 1)))
      case WantSession(d, session) => Next(s.(d := d, i := IWantSessions(s.i.i, session)))
      case WantServer(d) => Next(s.(d := d, i := IWantMaps(s.i.i)))
  }

  ghost function StepIncoming(env: Env, s: Sys, e: Event): Result
    requires e.ScanStart? || e.ScanEnd? || e.LockSessions? || e.Append? || e.LockMaps? || e.Register? || e.Finish?
  {
    if e.ScanStart? && s.i.IIdle? && s.incomingLock.None? then
      Next(s.(i := IScan(0), incomingLock := Some(Incoming)))
    else if e.ScanEnd? && s.i.IScan? && s.i.i >= |s.d.incoming| then
      Next(s.(i := IIdle, incomingLock := None, d := if e.purge then Purge(s.d) else s.d))
    else if e.LockSessions? && s.i.IWantSessions? && s.sessionLock.None? then
      Next(s.(i := IHoldSessions(s.i.i, s.i.s), sessionLock := Some(Incoming)))
    else if e.Append? && s.i.IHoldSessions? then
      Next(s.(i := IFinish(s.i.i), sessionLock := None, d := AppendSession(s.d, s.i.s)))
    else if e.LockMaps? && s.i.IWantMaps? && s.mapLock.None? then
      Next(s.(i := IHoldMaps(s.i.i), mapLock := Some(Incoming)))
    else if e.Register? && s.i.IHoldMaps? then
      if s.i.i >= |s.d.incoming| || !Enrollable(s.d.incoming[s.i.i]) then Crashed
      else Next(s.(i := IFinish(s.i.i), mapLock := None, d := Enlist(s.d, s.i.i, e.spare)))
    else if e.Finish? && s.i.IFinish? then
      if s.i.i >= |s.d.incoming| then Crashed
      else Next(s.(i := IScan(s.i.i + 1), d := Close(s.d, s.i.i)))
    else Off
  }

  ghost function StepConnected(env: Env, s: Sys, e: Event): Result
    requires e.PassStart? || e.ServeOne? || e.PassEnd?
  {
    if e.PassStart? && s.c.CIdle? && s.sessionLock.None? then
      Next(s.(c := CScan(0, false), sessionLock := Some(Connected)))
    else if e.PassEnd? && s.c.CScan? && s.c.j >= |s.d.sessions| then
      Next(s.(c := CIdle, sessionLock := None, d := if s.c.cleared then Sweep(s.d) else s.d))
    else if e.ServeOne? && s.c.CScan? && s.c.j < |s.d.sessions| then
      match Serve(env, s.d, s.c.j, e.q)
      case Crash => Crashed
      case Alive(d) => Next(s.(d := d, c := CScan(s.c.j + 1, s.c.cleared)))
      case Gone(d) => Next(s.(d := d, c := CScan(s.c.j + 1, true)))
    else Off
  }

  /** One atomic step of one thread or of the environment; `Off` when that thread is not at that point. */
  ghost function Step(env: Env, s: Sys, e: Event): Result {
    if e.Arrive? || e.Break? then StepEnvironment(s, e)
    else if e.AcceptSocket? || e.AcceptorLock? || e.AcceptorPush? then StepAcceptor(s, e)
    else if e.ScanOne? then StepScan(env, s, e.q)
    else if e.PassStart? || e.ServeOne? || e.PassEnd? then StepConnected(env, s, e)
    else StepIncoming(env, s, e)
  }

  /** A run: the states passed through by a sequence of steps, from start-up. */
  ghost predicate IsRun(env: Env, t: seq<Sys>, es: seq<Event>) {
    && |t| == |es| + 1 && t[0] == Boot(env)
    && forall k :: 0 <= k < |es| ==> Step(env, t[k], es[k]) == Next(t[k + 1])
  }

  /** Some run of the server passes through this state. */
  ghost predicate Reachable(env: Env, s: Sys) {
    exists t, es :: IsRun(env, t, es) && t[|es|] == s
  }

  lemma Booted(env: Env)
    ensures Reachable(env, Boot(env))
  {
    assert IsRun(env, [Boot(env)], []);
  }

  lemma Go(env: Env, s: Sys, e: Event, s': Sys)
    requires Reachable(env, s) && Step(env, s, e) == Next(s')
    ensures Reachable(env, s')
  {
    hide Step;
    var t, es :| IsRun(env, t, es) && t[|es|] == s;
    var t', es' := t + [s'], es + [e];
    assert IsRun(env, t', es') && t'[|es'|] == s';
  }

  // --- Locks ---

  ghost predicate LocksOk(s: Sys) {
    && !(s.a.AHold? && !s.i.IIdle?) && !(s.c.CScan? && s.i.IHoldSessions?)
    && s.incomingLock == (if s.a.AHold? then Some(Acceptor) else if !s.i.IIdle? then Some(Incoming) else None)
    && s.sessionLock == (if s.c.CScan? then Some(Connected) else if s.i.IHoldSessions? then Some(Incoming) else None)
    && s.mapLock == (if s.i.IHoldMaps? then Some(Incoming) else None)
  }

  lemma LocksKept(env: Env, s: Sys, e: Event)
    requires LocksOk(s) && Step(env, s, e).Next?
    ensures LocksOk(Step(env, s, e).s)
  {
    hide Visit, Serve;
  }

  /** The thread that `th` is waiting for, if any: the holder of the lock it must take next. */
  function WaitsFor(s: Sys, th: Thread): Option<Thread> {
    match th
    case Acceptor => if s.a.AWant? then s.incomingLock else None
    case Incoming =>
      if s.i.IIdle? then s.incomingLock
      else if s.i.IWantSessions? then s.sessionLock
      else if s.i.IWantMaps? then s.mapLock
      else None
    case Connected => if s.c.CIdle? then s.sessionLock else None
  }

  /** The steps of each thread. */
  predicate By(e: Event, th: Thread) {
    match th
    case Acceptor => e.AcceptSocket? || e.AcceptorLock? || e.AcceptorPush?
    case Incoming =>
      e.ScanStart? || e.ScanOne? || e.ScanEnd? || e.LockSessions? || e.Append? || e.LockMaps? || e.Register? || e.Finish?
    case Connected => e.PassStart? || e.ServeOne? || e.PassEnd?
  }

  /** `th` can take a step now. */
  ghost predicate CanMove(env: Env, s: Sys, th: Thread) {
    exists e :: By(e, th) && Step(env, s, e) != Off
  }

  ghost function Addrs(d: Data): set<nat> {
    set j | 0 <= j < |d.sessions| && d.sessions[j].Some? :: d.sessions[j].value.addr
  }

  /** A thread that waits for nobody can move. */
  lemma UnblockedMoves(env: Env, s: Sys, th: Thread)
    requires LocksOk(s) && WaitsFor(s, th).None?
    ensures CanMove(env, s, th)
  {
    hide Visit, Serve, Enlist, Purge;
    FreshNumber(Addrs(s.d));
    FreshNumber(s.d.net.Keys);
    var addr: nat :| addr !in Addrs(s.d);
    var id: nat :| id !in s.d.net.Keys;
    var q := Fate(Lost, Db([], []), addr, 0);
    var e := match th
      case Acceptor => if s.a.AIdle? then AcceptSocket(id) else if s.a.AWant? then AcceptorLock else AcceptorPush
      case Incoming =>
        (match s.i
         case IIdle => ScanStart
         case IScan(i) => if i < |s.d.incoming| then ScanOne(q) else ScanEnd(false)
         case IWantSessions(_, _) => LockSessions
         case IHoldSessions(_, _) => Append
         case IWantMaps(_) => LockMaps
         case IHoldMaps(_) => Register(0)
         case IFinish(_) => Finish)
      case Connected =>
        (match s.c
         case CIdle => PassStart
         case CScan(j, _) => if j < |s.d.sessions| then ServeOne(q) else PassEnd);
    assert By(e, th);
    assert Step(env, s, e) != Off;
  }

  /**
   * No deadlock: whoever a thread waits for can move at once or waits for a third thread that can, so
   * chains of waiting have at most two links and never close into a cycle.
   */
  lemma NoDeadlock(env: Env, s: Sys, th: Thread)
    requires LocksOk(s)
    ensures CanMove(env, s, th)
         || (WaitsFor(s, th).Some? && CanMove(env, s, WaitsFor(s, th).value))
         || (WaitsFor(s, th).Some? && WaitsFor(s, WaitsFor(s, th).value).Some?
             && CanMove(env, s, WaitsFor(s, WaitsFor(s, th).value).value))
  {
    hide Step;
    var t1 := WaitsFor(s, th);
    if t1.None? {
      UnblockedMoves(env, s, th);
    } else {
      var t2 := WaitsFor(s, t1.value);
      if t2.None? {
        UnblockedMoves(env, s, t1.value);
      } else {
        UnblockedMoves(env, s, t2.value);
      }
    }
  }
}
