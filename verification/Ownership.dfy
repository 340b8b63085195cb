/** Every accepted socket has exactly one owner, under every interleaving. */
module Ownership {
  import opened Prelude
  import opened Domain
  import opened Handlers
  import opened LoginData
  import opened Threads

  function HoldsConn(x: SockId): Connection -> bool {
    (c: Connection) => c.socket == Some(x)
  }

  function HoldsSession(x: SockId): Option<Session> -> bool {
    (s: Option<Session>) => s.Some? && s.value.socket == x
  }

  function HoldsServer(x: SockId): MapServer -> bool {
    (m: MapServer) => m.socket == x
  }

  function Is(x: SockId): SockId -> bool {
    (y: SockId) => y == x
  }

  /** How many owners socket `x` has among the containers and the destroyed sockets. */
  ghost function Owners(d: Data, x: SockId): nat {
    Count(HoldsConn(x), d.incoming) + Count(HoldsSession(x), d.sessions) + Count(HoldsServer(x), d.servers)
      + Count(Is(x), d.dropped)
  }

  /** ... and among the local variables of the threads: a socket just accepted, a session not yet appended. */
  ghost function InFlight(s: Sys, x: SockId): nat {
    One(!s.a.AIdle? && s.a.id == x) + One((s.i.IWantSessions? || s.i.IHoldSessions?) && s.i.s.socket == x)
  }

  /** The balance of ownership of one socket. */
  ghost predicate Balanced(s: Sys, x: SockId) {
    Owners(s.d, x) + InFlight(s, x) == One(x in s.d.net)
  }

  /** Every accepted socket has exactly one owner, and nobody owns any other. */
  ghost predicate Conserved(s: Sys) {
    forall x: SockId :: Balanced(s, x)
  }

  lemma DispatchKeepsSocket(env: Env, c: Connection, k: Sock, q: Ask)
    ensures Dispatch(env, c, k, q).conn.socket == c.socket
  {
    hide Offer, FirstPlayer;
  }

  /** What `Visit` does to ownership: nothing, or one socket leaves a connection for a new session. */
  lemma VisitHolds(env: Env, d: Data, i: nat, q: Fate, x: SockId)
    requires i < |d.incoming|
    ensures var v := Visit(env, d, i, q);
            && (v.Continue? || v.WantServer? ==> Owners(v.d, x) == Owners(d, x) && v.d.net.Keys == d.net.Keys)
            && (v.WantSession? ==>
                  Owners(v.d, x) + One(v.s.socket == x) == Owners(d, x) && v.d.net.Keys == d.net.Keys)
  {
    hide Dispatch, Count, Reported;
    var c := d.incoming[i];
    CountUpdate(HoldsConn(x), d.incoming, i, c.(state := Done));
    if c.socket.Some? && c.socket.value in d.net {
      var k := d.net[c.socket.value];
      var a := Ask(q.send, q.db, d.served.Keys);
      var e := Dispatch(env, c, k, a);
      DispatchKeepsSocket(env, c, k, a);
      CountUpdate(HoldsConn(x), d.incoming, i, e.conn);
      CountUpdate(HoldsConn(x), d.incoming, i, e.conn.(socket := None));
    }
  }

  lemma EnlistHolds(d: Data, i: nat, spare: nat, x: SockId)
    requires i < |d.incoming| && Enrollable(d.incoming[i])
    ensures Owners(Enlist(d, i, spare), x) == Owners(d, x)
  {
    hide EmplaceAll, Count;
    var c := d.incoming[i];
    CountUpdate(HoldsConn(x), d.incoming, i, c.(socket := None, maps := Some([])));
    CountSnoc(HoldsServer(x), d.servers, Record(c));
  }

  lemma {:induction false} SocketsCount(cs: seq<Connection>, x: SockId)
    ensures Count(Is(x), Sockets(cs)) == Count(HoldsConn(x), cs)
  {
    if cs != [] {
      var n := |cs| - 1;
      SocketsCount(cs[..n], x);
      if cs[n].socket.Some? {
        CountSnoc(Is(x), Sockets(cs[..n]), cs[n].socket.value);
      }
    }
  }

  lemma PurgeHolds(d: Data, x: SockId)
    ensures Owners(Purge(d), x) == Owners(d, x)
  {
    hide Count;
    var gone := Filter(IsDone, d.incoming);
    CountSplit(HoldsConn(x), NotDone, IsDone, d.incoming);
    SocketsCount(gone, x);
    CountConcat(Is(x), d.dropped, Sockets(gone));
  }

  lemma ServeHolds(env: Env, d: Data, j: nat, q: Fate, x: SockId)
    requires j < |d.sessions|
    ensures var v := Serve(env, d, j, q);
            !v.Crash? ==> Owners(v.d, x) == Owners(d, x) && v.d.net.Keys == d.net.Keys
  {
    hide Attend, Count, Routes;
    if d.sessions[j].Some? && d.sessions[j].value.socket in d.net {
      var s := d.sessions[j].value;
      var k, a := d.net[s.socket], Ask(q.send, q.db, {});
      var routes := Routes(env, d.servers, d.served, d.generation);
      AttendKeeps(s, k, a, routes);
      CountUpdate(HoldsSession(x), d.sessions, j, None);
      CountSnoc(Is(x), d.dropped, s.socket);
      if Attend(s, k, a, routes).Attended? {
        CountUpdate(HoldsSession(x), d.sessions, j, Some(Attend(s, k, a, routes).session));
      }
    }
  }

  predicate IsNull(s: Option<Session>) {
    s.None?
  }

  lemma SweepHolds(d: Data, x: SockId)
    ensures Owners(Sweep(d), x) == Owners(d, x)
  {
    hide Count;
    var nulls := Filter(IsNull, d.sessions);
    CountSplit(HoldsSession(x), IsLive, IsNull, d.sessions);
    InFilter(IsNull, d.sessions);
    CountNone(HoldsSession(x), nulls);
  }

  lemma AcceptorBalanced(s: Sys, e: Event, x: SockId)
    requires e.AcceptSocket? || e.AcceptorLock? || e.AcceptorPush?
    requires StepAcceptor(s, e).Next? && Balanced(s, x)
    ensures Balanced(StepAcceptor(s, e).s, x)
  {
    hide Count;
    if e.AcceptorPush? {
      CountSnoc(HoldsConn(x), s.d.incoming, NewConnection(s.a.id));
    }
  }

  lemma ScanBalanced(env: Env, s: Sys, q: Fate, x: SockId)
    requires StepScan(env, s, q).Next? && Balanced(s, x)
    ensures Balanced(StepScan(env, s, q).s, x)
  {
    hide Visit, Owners;
    VisitHolds(env, s.d, s.i.i, q, x);
  }

  lemma IncomingBalanced(env: Env, s: Sys, e: Event, x: SockId)
    requires e.ScanStart? || e.ScanEnd? || e.LockSessions? || e.Append? || e.LockMaps? || e.Register? || e.Finish?
    requires StepIncoming(env, s, e).Next? && Balanced(s, x)
    ensures Balanced(StepIncoming(env, s, e).s, x)
  {
    hide Enlist, Purge, Count;
    match e
    case ScanEnd(_) => PurgeHolds(s.d, x); PurgeNet(s.d);
    case Append => CountSnoc(HoldsSession(x), s.d.sessions, Some(s.i.s));
    case Register(spare) => EnlistHolds(s.d, s.i.i, spare, x); EnlistNet(s.d, s.i.i, spare);
    case Finish => CountUpdate(HoldsConn(x), s.d.incoming, s.i.i, s.d.incoming[s.i.i].(state := Done));
    case _ =>
  }

  lemma ConnectedBalanced(env: Env, s: Sys, e: Event, x: SockId)
    requires e.PassStart? || e.ServeOne? || e.PassEnd?
    requires StepConnected(env, s, e).Next? && Balanced(s, x)
    ensures Balanced(StepConnected(env, s, e).s, x)
  {
    hide Serve, Sweep, Owners;
    match e
    case ServeOne(q) => ServeHolds(env, s.d, s.c.j, q, x);
    case PassEnd => SweepHolds(s.d, x); PurgeNet(s.d);
    case _ =>
  }

  lemma StepBalanced(env: Env, s: Sys, e: Event, x: SockId)
    requires Step(env, s, e).Next? && Balanced(s, x)
    ensures Balanced(Step(env, s, e).s, x)
  {
    hide StepAcceptor, StepScan, StepIncoming, StepConnected;
    if e.Arrive? || e.Break? {
    } else if e.AcceptSocket? || e.AcceptorLock? || e.AcceptorPush? {
      AcceptorBalanced(s, e, x);
    } else if e.ScanOne? {
      ScanBalanced(env, s, e.q, x);
    } else if e.PassStart? || e.ServeOne? || e.PassEnd? {
      ConnectedBalanced(env, s, e, x);
    } else {
      IncomingBalanced(env, s, e, x);
    }
  }

  lemma PurgeNet(d: Data)
    ensures Purge(d).net == d.net && Sweep(d).net == d.net
  {
  }

  lemma EnlistNet(d: Data, i: nat, spare: nat)
    requires i < |d.incoming| && Enrollable(d.incoming[i])
    ensures Enlist(d, i, spare).net == d.net
  {
  }

  /** Conservation is kept by every step of every thread. */
  lemma ConservedKept(env: Env, s: Sys, e: Event)
    requires Conserved(s) && Step(env, s, e).Next?
    ensures Conserved(Step(env, s, e).s)
  {
    hide Step, Balanced;
    forall x: SockId
      ensures Balanced(Step(env, s, e).s, x)
    {
      StepBalanced(env, s, e, x);
    }
  }

  /** What single ownership means for the containers. */
  ghost predicate Exclusive(s: Sys) {
    && (forall x, y :: 0 <= x < |s.d.incoming| && 0 <= y < |s.d.incoming| && x != y && s.d.incoming[x].socket.Some? ==>
          s.d.incoming[y].socket != s.d.incoming[x].socket)
    && (forall x, j :: 0 <= x < |s.d.incoming| && 0 <= j < |s.d.sessions| && s.d.sessions[j].Some? ==>
          s.d.incoming[x].socket != Some(s.d.sessions[j].value.socket))
    && (forall x, m :: 0 <= x < |s.d.incoming| && 0 <= m < |s.d.servers| ==>
          s.d.incoming[x].socket != Some(s.d.servers[m].socket))
    && (forall x :: 0 <= x < |s.d.incoming| && s.d.incoming[x].socket.Some? ==>
          s.d.incoming[x].socket.value in s.d.net && InFlight(s, s.d.incoming[x].socket.value) == 0)
    && (forall j :: 0 <= j < |s.d.sessions| && s.d.sessions[j].Some? ==>
          s.d.sessions[j].value.socket in s.d.net && InFlight(s, s.d.sessions[j].value.socket) == 0)
    && (forall m :: 0 <= m < |s.d.servers| ==>
          s.d.servers[m].socket in s.d.net && InFlight(s, s.d.servers[m].socket) == 0)
    && (!s.a.AIdle? ==> s.a.id in s.d.net)
    && (s.i.IWantSessions? || s.i.IHoldSessions? ==> s.i.s.socket in s.d.net)
  }

  lemma AtMostOneOwner(s: Sys, id: SockId)
    requires Conserved(s)
    ensures Owners(s.d, id) + InFlight(s, id) == One(id in s.d.net)
  {
    assert Balanced(s, id);
  }

  lemma ConnIsExclusive(s: Sys, x: nat)
    requires Conserved(s) && x < |s.d.incoming| && s.d.incoming[x].socket.Some?
    ensures var id := s.d.incoming[x].socket;
            && id.value in s.d.net && InFlight(s, id.value) == 0
            && (forall y :: 0 <= y < |s.d.incoming| && y != x ==> s.d.incoming[y].socket != id)
            && (forall j :: 0 <= j < |s.d.sessions| && s.d.sessions[j].Some? ==>
                  s.d.sessions[j].value.socket != id.value)
            && (forall m :: 0 <= m < |s.d.servers| ==> s.d.servers[m].socket != id.value)
  {
    hide Count;
    var d, id := s.d, s.d.incoming[x].socket.value;
    AtMostOneOwner(s, id);
    CountHas(HoldsConn(id), d.incoming, x);
    forall y | 0 <= y < |d.incoming| && y != x
      ensures d.incoming[y].socket != Some(id)
    {
      if d.incoming[y].socket == Some(id) {
        CountTwo(HoldsConn(id), d.incoming, if x < y then x else y, if x < y then y else x);
      }
    }
    forall j | 0 <= j < |d.sessions| && d.sessions[j].Some?
      ensures d.sessions[j].value.socket != id
    {
      if d.sessions[j].value.socket == id {
        CountHas(HoldsSession(id), d.sessions, j);
      }
    }
    forall m | 0 <= m < |d.servers|
      ensures d.servers[m].socket != id
    {
      if d.servers[m].socket == id {
        CountHas(HoldsServer(id), d.servers, m);
      }
    }
  }

  lemma ConservedIsExclusive(s: Sys)
    requires Conserved(s)
    ensures Exclusive(s)
  {
    hide Conserved;
    var d := s.d;
    forall x | 0 <= x < |d.incoming| && d.incoming[x].socket.Some?
      ensures d.incoming[x].socket.value in d.net && InFlight(s, d.incoming[x].socket.value) == 0
      ensures forall y :: 0 <= y < |d.incoming| && y != x ==> d.incoming[y].socket != d.incoming[x].socket
      ensures forall j :: 0 <= j < |d.sessions| && d.sessions[j].Some? ==>
                d.incoming[x].socket != Some(d.sessions[j].value.socket)
      ensures forall m :: 0 <= m < |d.servers| ==> d.incoming[x].socket != Some(d.servers[m].socket)
    {
      ConnIsExclusive(s, x);
    }
    forall j | 0 <= j < |d.sessions| && d.sessions[j].Some?
      ensures d.sessions[j].value.socket in d.net && InFlight(s, d.sessions[j].value.socket) == 0
    {
      AtMostOneOwner(s, d.sessions[j].value.socket);
      CountHas(HoldsSession(d.sessions[j].value.socket), d.sessions, j);
    }
    forall m | 0 <= m < |d.servers|
      ensures d.servers[m].socket in d.net && InFlight(s, d.servers[m].socket) == 0
    {
      AtMostOneOwner(s, d.servers[m].socket);
      CountHas(HoldsServer(d.servers[m].socket), d.servers, m);
    }
    if !s.a.AIdle? {
      AtMostOneOwner(s, s.a.id);
    }
    if s.i.IWantSessions? || s.i.IHoldSessions? {
      AtMostOneOwner(s, s.i.s.socket);
    }
  }

  lemma BootConserved(env: Env)
    ensures Conserved(Boot(env))
  {
  }
}
