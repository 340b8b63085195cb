/** One socket's own view of a run of the login server: who holds it, and what each step does to that. */
module SocketViews {
  import opened Prelude
  import opened Domain
  import opened Handlers
  import opened LoginData
  import opened Threads
  import opened Ownership
  import opened Connections
  import opened Sessions
  import opened Runs

  /** Where a socket is. */
  datatype Spot =
    | AtAcceptor
    | AtConnection(x: nat)
    | AtOpening
    | AtSession(j: nat)
    | AtServer(m: nat)
    | AtDropped(n: nat)

  /** Who holds it. A connection that is just being registered already counts as the map server it becomes. */
  datatype Owner = OfConnection(c: Connection) | OfSession(x: Session) | OfServer(m: MapServer) | OfNobody

  ghost predicate Sits(s: Sys, id: SockId, p: Spot) {
    match p
    case AtAcceptor => !s.a.AIdle? && s.a.id == id
    case AtConnection(x) => x < |s.d.incoming| && s.d.incoming[x].socket == Some(id)
    case AtOpening => Opening(s).Some? && Opening(s).value.socket == id
    case AtSession(j) => Live(s.d, j) && s.d.sessions[j].value.socket == id
    case AtServer(m) => m < |s.d.servers| && s.d.servers[m].socket == id
    case AtDropped(n) => n < |s.d.dropped| && s.d.dropped[n] == id
  }

  predicate BeingRegistered(s: Sys, x: nat) {
    (s.i.IWantMaps? || s.i.IHoldMaps?) && s.i.i == x
  }

  ghost predicate Shows(s: Sys, id: SockId, p: Spot, o: Owner)
    requires Sits(s, id, p)
  {
    match p
    case AtAcceptor => o == OfConnection(NewConnection(id))
    case AtConnection(x) =>
      if BeingRegistered(s, x) then Enrollable(s.d.incoming[x]) && o == OfServer(Record(s.d.incoming[x]))
      else o == OfConnection(s.d.incoming[x])
    case AtOpening => o == OfSession(Opening(s).value)
    case AtSession(j) => o == OfSession(s.d.sessions[j].value)
    case AtServer(m) => o == OfServer(s.d.servers[m])
    case AtDropped(_) => o.OfNobody? || (o.OfConnection? && o.c.state.Done?)
  }

  ghost predicate Holds(s: Sys, id: SockId, o: Owner) {
    id in s.d.net && exists p :: Sits(s, id, p) && Shows(s, id, p, o)
  }

  lemma HeldIsKnown(s: Sys, id: SockId, o: Owner)
    requires Holds(s, id, o)
    ensures id in s.d.net
  {
  }

  // --- A socket is in one place ---

  ghost function SpotCount(s: Sys, id: SockId, p: Spot): nat {
    match p
    case AtAcceptor => One(!s.a.AIdle? && s.a.id == id)
    case AtConnection(_) => Count(HoldsConn(id), s.d.incoming)
    case AtOpening => One((s.i.IWantSessions? || s.i.IHoldSessions?) && s.i.s.socket == id)
    case AtSession(_) => Count(HoldsSession(id), s.d.sessions)
    case AtServer(_) => Count(HoldsServer(id), s.d.servers)
    case AtDropped(_) => Count(Is(id), s.d.dropped)
  }

  lemma SitsCounts(s: Sys, id: SockId, p: Spot)
    requires Sits(s, id, p)
    ensures SpotCount(s, id, p) >= 1
  {
    hide Count;
    match p
    case AtConnection(x) => CountHas(HoldsConn(id), s.d.incoming, x);
    case AtSession(j) => CountHas(HoldsSession(id), s.d.sessions, j);
    case AtServer(m) => CountHas(HoldsServer(id), s.d.servers, m);
    case AtDropped(n) => CountHas(Is(id), s.d.dropped, n);
    case _ =>
  }

  /** Two different places of one container. */
  lemma TwoSpots<T>(p: T -> bool, s: seq<T>, i: nat, j: nat)
    requires i < |s| && j < |s| && p(s[i]) && p(s[j]) && Count(p, s) <= 1
    ensures i == j
  {
    if i < j {
      CountTwo(p, s, i, j);
    } else if j < i {
      CountTwo(p, s, j, i);
    }
  }

  lemma OneSpot(s: Sys, id: SockId, p: Spot, r: Spot)
    requires Conserved(s) && Sits(s, id, p) && Sits(s, id, r)
    ensures p == r
  {
    hide Count, Conserved;
    AtMostOneOwner(s, id);
    SitsCounts(s, id, p);
    SitsCounts(s, id, r);
    match p
    case AtConnection(x) =>
      assert r.AtConnection?;
      TwoSpots(HoldsConn(id), s.d.incoming, x, r.x);
    case AtSession(j) =>
      assert r.AtSession?;
      TwoSpots(HoldsSession(id), s.d.sessions, j, r.j);
    case AtServer(m) =>
      assert r.AtServer?;
      TwoSpots(HoldsServer(id), s.d.servers, m, r.m);
    case AtDropped(n) =>
      assert r.AtDropped?;
      TwoSpots(Is(id), s.d.dropped, n, r.n);
    case _ =>
  }

  /** The owner is the one that its place shows. */
  lemma OwnerAt(s: Sys, id: SockId, p: Spot, o: Owner)
    requires Conserved(s) && Sits(s, id, p) && Holds(s, id, o)
    ensures Shows(s, id, p, o)
  {
    hide Conserved, Sits, Shows;
    var r :| Sits(s, id, r) && Shows(s, id, r, o);
    OneSpot(s, id, p, r);
  }

  // --- Steps that do not visit the socket ---

  /** The step receives on, breaks, or visits the holder of, this socket. */
  ghost predicate Touches(s: Sys, e: Event, id: SockId) {
    || ((e.Arrive? || e.Break?) && e.id == id)
    || (e.ScanOne? && s.i.IScan? && Sits(s, id, AtConnection(s.i.i)))
    || (e.ServeOne? && s.c.CScan? && Sits(s, id, AtSession(s.c.j)))
  }

  lemma VisitTouchesOne(env: Env, d: Data, i: nat, q: Fate, id: SockId)
    requires i < |d.incoming| && d.incoming[i].socket != Some(id) && id in d.net
    ensures var v := Visit(env, d, i, q);
            !v.Fault? ==>
              && id in v.d.net && v.d.net[id] == d.net[id] && v.d.servers == d.servers && v.d.sessions == d.sessions
              && v.d.dropped == d.dropped && |v.d.incoming| == |d.incoming|
              && v.d.incoming == d.incoming[i := v.d.incoming[i]]
  {
    hide Dispatch, Reported;
  }

  lemma QuietScan(env: Env, s: Sys, q: Fate, id: SockId, p: Spot, o: Owner)
    requires id in s.d.net && Sits(s, id, p) && Shows(s, id, p, o) && !Touches(s, ScanOne(q), id)
    requires StepScan(env, s, q).Next?
    ensures var t := StepScan(env, s, q).s;
            id in t.d.net && t.d.net[id] == s.d.net[id] && Sits(t, id, p) && Shows(t, id, p, o)
  {
    hide Visit;
    VisitTouchesOne(env, s.d, s.i.i, q, id);
  }

  lemma ServeTouchesOne(env: Env, d: Data, j: nat, q: Fate, id: SockId)
    requires j < |d.sessions| && (d.sessions[j].Some? ==> d.sessions[j].value.socket != id) && id in d.net
    ensures var v := Serve(env, d, j, q);
            !v.Crash? ==>
              && id in v.d.net && v.d.net[id] == d.net[id] && v.d.servers == d.servers && v.d.incoming == d.incoming
              && d.dropped <= v.d.dropped && |v.d.sessions| == |d.sessions|
              && (forall k :: 0 <= k < |d.sessions| && k != j ==> v.d.sessions[k] == d.sessions[k])
  {
    hide Attend, Routes;
  }

  lemma QuietServe(env: Env, s: Sys, q: Fate, id: SockId, p: Spot, o: Owner)
    requires id in s.d.net && Sits(s, id, p) && Shows(s, id, p, o) && !Touches(s, ServeOne(q), id)
    requires StepConnected(env, s, ServeOne(q)).Next?
    ensures var t := StepConnected(env, s, ServeOne(q)).s;
            id in t.d.net && t.d.net[id] == s.d.net[id] && Sits(t, id, p) && Shows(t, id, p, o)
  {
    hide Serve;
    ServeTouchesOne(env, s.d, s.c.j, q, id);
  }

  lemma {:induction false} SocketsHas(cs: seq<Connection>, c: Connection, id: SockId)
    requires c in cs && c.socket == Some(id)
    ensures id in Sockets(cs)
  {
    var n := |cs| - 1;
    if cs[n] != c {
      assert c in cs[..n];
      SocketsHas(cs[..n], c, id);
    }
  }

  /** The purge destroys a done connection's socket, and moves any other connection. */
  lemma QuietPurge(s: Sys, t: Sys, id: SockId, x: nat) returns (p: Spot)
    requires t == s.(i := IIdle, incomingLock := None, d := Purge(s.d)) && s.i.IScan? && Sits(s, id, AtConnection(x))
    ensures Sits(t, id, p) && Shows(t, id, p, OfConnection(s.d.incoming[x]))
  {
    var c := s.d.incoming[x];
    InFilter(NotDone, s.d.incoming);
    InFilter(IsDone, s.d.incoming);
    if c.state.Done? {
      SocketsHas(Filter(IsDone, s.d.incoming), c, id);
      assert id in t.d.dropped;
      var n :| 0 <= n < |t.d.dropped| && t.d.dropped[n] == id;
      p := AtDropped(n);
    } else {
      assert c in t.d.incoming;
      var y :| 0 <= y < |t.d.incoming| && t.d.incoming[y] == c;
      p := AtConnection(y);
    }
  }

  lemma QuietRegister(s: Sys, id: SockId, p: Spot, o: Owner, spare: nat) returns (r: Spot)
    requires Sits(s, id, p) && Shows(s, id, p, o) && s.i.IHoldMaps? && s.i.i < |s.d.incoming|
    requires Enrollable(s.d.incoming[s.i.i])
    ensures var t := s.(i := IFinish(s.i.i), mapLock := None, d := Enlist(s.d, s.i.i, spare));
            t.d.net == s.d.net && Sits(t, id, r) && Shows(t, id, r, o)
  {
    hide EmplaceAll;
    r := if p == AtConnection(s.i.i) then AtServer(|s.d.servers|) else p;
  }

  lemma QuietIncoming(env: Env, s: Sys, e: Event, id: SockId, p: Spot, o: Owner) returns (r: Spot)
    requires e.ScanStart? || e.ScanEnd? || e.LockSessions? || e.Append? || e.LockMaps? || e.Register? || e.Finish?
    requires ConnsOk(s) && Sits(s, id, p) && Shows(s, id, p, o) && StepIncoming(env, s, e).Next?
    ensures var t := StepIncoming(env, s, e).s; t.d.net == s.d.net && Sits(t, id, r) && Shows(t, id, r, o)
  {
    hide Enlist, Purge, AllAtRest, Coherent;
    r := p;
    match e
    case ScanEnd(purge) =>
      PurgeNet(s.d);
      PurgeFrame(s.d);
      if purge && p.AtConnection? {
        r := QuietPurge(s, StepIncoming(env, s, e).s, id, p.x);
      }
    case Register(spare) => r := QuietRegister(s, id, p, o, spare);
    case Append =>
      if p.AtOpening? {
        r := AtSession(|s.d.sessions|);
      }
    case _ =>
  }

  lemma PurgeFrame(d: Data)
    ensures Purge(d).servers == d.servers && Purge(d).sessions == d.sessions && d.dropped <= Purge(d).dropped
  {
  }

  lemma QuietPassEnd(env: Env, s: Sys, id: SockId, p: Spot, o: Owner) returns (r: Spot)
    requires Sits(s, id, p) && Shows(s, id, p, o) && StepConnected(env, s, PassEnd).Next?
    ensures var t := StepConnected(env, s, PassEnd).s; t.d.net == s.d.net && Sits(t, id, r) && Shows(t, id, r, o)
  {
    hide Origin, Filter;
    r := p;
    if p.AtSession? && s.c.cleared {
      SweepIsStable(s.d);
      var k :| 0 <= k < |Sweep(s.d).sessions| && Origin(s.d, k) == p.j;
      r := AtSession(k);
    }
  }

  lemma QuietAcceptor(s: Sys, e: Event, id: SockId, p: Spot, o: Owner) returns (r: Spot)
    requires e.AcceptSocket? || e.AcceptorLock? || e.AcceptorPush?
    requires LocksOk(s) && id in s.d.net && Sits(s, id, p) && Shows(s, id, p, o) && StepAcceptor(s, e).Next?
    ensures var t := StepAcceptor(s, e).s;
            id in t.d.net && t.d.net[id] == s.d.net[id] && Sits(t, id, r) && Shows(t, id, r, o)
  {
    r := if e.AcceptorPush? && p.AtAcceptor? then AtConnection(|s.d.incoming|) else p;
  }

  /** A step that does not touch a socket changes neither the socket nor who holds it. */
  lemma QuietStep(env: Env, s: Sys, e: Event, id: SockId, o: Owner)
    requires Inv(env, s) && Holds(s, id, o) && !Touches(s, e, id) && Step(env, s, e).Next?
    ensures var t := Step(env, s, e).s; Holds(t, id, o) && id in t.d.net && t.d.net[id] == s.d.net[id]
  {
    InvParts(env, s);
    hide Inv, StepAcceptor, StepScan, StepIncoming, StepConnected, Exclusive, SessionsOk, Sits, Shows, ConnsOk, LocksOk, Touches;
    var p :| Sits(s, id, p) && Shows(s, id, p, o);
    var r := p;
    if e.Arrive? || e.Break? {
      QuietArrival(s, e, id, p, o);
    } else if e.AcceptSocket? || e.AcceptorLock? || e.AcceptorPush? {
      r := QuietAcceptor(s, e, id, p, o);
    } else if e.ScanOne? {
      QuietScan(env, s, e.q, id, p, o);
    } else if e.ServeOne? {
      QuietServe(env, s, e.q, id, p, o);
    } else if e.PassEnd? {
      r := QuietPassEnd(env, s, id, p, o);
    } else if e.PassStart? {
      QuietPassStart(env, s, id, p, o);
    } else {
      r := QuietIncoming(env, s, e, id, p, o);
    }
    assert Sits(Step(env, s, e).s, id, r) && Shows(Step(env, s, e).s, id, r, o);
  }

  lemma QuietPassStart(env: Env, s: Sys, id: SockId, p: Spot, o: Owner)
    requires Sits(s, id, p) && Shows(s, id, p, o) && StepConnected(env, s, PassStart).Next?
    ensures var t := StepConnected(env, s, PassStart).s; t.d.net == s.d.net && Sits(t, id, p) && Shows(t, id, p, o)
  {
  }

  lemma QuietArrival(s: Sys, e: Event, id: SockId, p: Spot, o: Owner)
    requires (e.Arrive? || e.Break?) && !Touches(s, e, id) && StepEnvironment(s, e).Next?
    requires id in s.d.net && Sits(s, id, p) && Shows(s, id, p, o)
    ensures var t := StepEnvironment(s, e).s;
            id in t.d.net && t.d.net[id] == s.d.net[id] && Sits(t, id, p) && Shows(t, id, p, o)
  {
  }

  // --- Steps that visit the socket ---

  /** The session that a successful login on this socket opens. */
  function NewSession(d: Data, q: Fate, id: SockId, next: Next): Session
    requires next.OpenSession?
  {
    Session(q.addr, d.created % GUIDS, next.playerID, next.username, id, 0)
  }

  /** What a visit by `processIncoming` makes of the connection that holds the socket. */
  ghost function AfterVisit(env: Env, s: Sys, q: Fate, id: SockId, c: Connection): (Owner, Sock)
    requires id in s.d.net
  {
    var k := s.d.net[id];
    if c.state.Done? then (OfConnection(c), k)
    else if k.error then (OfConnection(c.(state := Done)), k)
    else
      var e := Dispatch(env, c, k, Ask(q.send, q.db, s.d.served.Keys));
      (if e.next.OpenSession? then OfSession(NewSession(s.d, q, id, e.next))
       else if e.next.Enrol? && Enrollable(e.conn) then OfServer(Record(e.conn))
       else OfConnection(e.conn), e.sock)
  }

  /** The place that a visited connection's socket goes to. */
  function SpotAfter(o: Owner, i: nat): Spot {
    if o.OfSession? then AtOpening else AtConnection(i)
  }

  lemma VisitIs(env: Env, s: Sys, q: Fate, id: SockId)
    requires s.i.IScan? && s.i.i < |s.d.incoming| && s.d.incoming[s.i.i].socket == Some(id) && id in s.d.net
    requires Coherent(s.d.incoming[s.i.i])
    ensures var d, i := s.d, s.i.i; var c := d.incoming[i];
            var v, o := Visit(env, d, i, q), AfterVisit(env, s, q, id, c);
            !v.Fault? ==>
              && id in v.d.net && v.d.net[id] == o.1 && i < |v.d.incoming|
              && (v.Continue? ==> o.0 == OfConnection(v.d.incoming[i]) && v.d.incoming[i].socket == Some(id))
              && (v.WantServer? ==> Enrollable(v.d.incoming[i]) && v.d.incoming[i].socket == Some(id)
                                    && o.0 == OfServer(Record(v.d.incoming[i])))
              && (v.WantSession? ==> o.0 == OfSession(v.s) && v.s.socket == id)
  {
    var c, k, a := s.d.incoming[s.i.i], s.d.net[id], Ask(q.send, q.db, s.d.served.Keys);
    DispatchKeepsSocket(env, c, k, a);
    DispatchEnrols(env, c, k, a);
    hide Dispatch, Reported, Coherent;
  }

  lemma ScanTouch(env: Env, s: Sys, q: Fate, id: SockId, o: Owner)
    requires Inv(env, s) && Holds(s, id, o) && Touches(s, ScanOne(q), id) && StepScan(env, s, q).Next?
    ensures o.OfConnection? && o.c.socket == Some(id)
    ensures var t, v := StepScan(env, s, q).s, AfterVisit(env, s, q, id, o.c); Holds(t, id, v.0) && id in t.d.net && t.d.net[id] == v.1
  {
    hide Inv, Holds, AfterVisit, Visit, Coherent;
    ScannedOwner(env, s, q, id, o);
    VisitIs(env, s, q, id);
    var v := AfterVisit(env, s, q, id, o.c);
    HoldsAt(StepScan(env, s, q).s, id, SpotAfter(v.0, s.i.i), v.0);
  }

  lemma ScannedOwner(env: Env, s: Sys, q: Fate, id: SockId, o: Owner)
    requires Inv(env, s) && Holds(s, id, o) && Touches(s, ScanOne(q), id)
    ensures s.i.IScan? && s.i.i < |s.d.incoming| && o == OfConnection(s.d.incoming[s.i.i]) && o.c.socket == Some(id)
    ensures Coherent(o.c) && id in s.d.net
  {
    OwnerAt(s, id, AtConnection(s.i.i), o);
    hide Holds, LocksOk, SessionsOk, Conserved, Sound, Coherent;
    assert AtRest(s.d.net, s.d.incoming[s.i.i]);
  }

  lemma HoldsAt(s: Sys, id: SockId, p: Spot, o: Owner)
    requires id in s.d.net && Sits(s, id, p) && Shows(s, id, p, o)
    ensures Holds(s, id, o)
  {
  }

  lemma DispatchEnrols(env: Env, c: Connection, k: Sock, q: Ask)
    requires Coherent(c) && c.socket.Some?
    ensures Dispatch(env, c, k, q).next.Enrol? ==> Enrollable(Dispatch(env, c, k, q).conn)
  {
    hide Offer, FirstPlayer;
  }

  /** What a visit by `processConnected` makes of the session that holds the socket. */
  ghost function AfterAttend(env: Env, s: Sys, q: Fate, id: SockId, x: Session): (Owner, Sock)
    requires id in s.d.net
  {
    var k := s.d.net[id];
    if k.error then (OfNobody, k)
    else
      match Attend(x, k, Ask(q.send, q.db, {}), Routes(env, s.d.servers, s.d.served, s.d.generation))
      case ReadDangling => (OfSession(x), k)
      case Attended(x', k') => (OfSession(x'), k')
  }

  lemma ServeIs(env: Env, s: Sys, q: Fate, id: SockId)
    requires s.c.CScan? && Live(s.d, s.c.j) && s.d.sessions[s.c.j].value.socket == id && id in s.d.net
    ensures var d, j := s.d, s.c.j; var x := d.sessions[j].value;
            var v, o := Serve(env, d, j, q), AfterAttend(env, s, q, id, x);
            !v.Crash? ==>
              && id in v.d.net && v.d.net[id] == o.1 && |v.d.sessions| == |d.sessions|
              && (v.Alive? ==> Live(v.d, j) && o.0 == OfSession(v.d.sessions[j].value) && v.d.sessions[j].value.socket == id)
              && (v.Gone? ==> o.0.OfNobody? && v.d.dropped == d.dropped + [id])
  {
    var x, k, a := s.d.sessions[s.c.j].value, s.d.net[id], Ask(q.send, q.db, {});
    AttendKeeps(x, k, a, Routes(env, s.d.servers, s.d.served, s.d.generation));
    hide Attend, Routes, Decreasing, Welcome;
  }

  lemma ServeTouch(env: Env, s: Sys, q: Fate, id: SockId, o: Owner)
    requires Inv(env, s) && Holds(s, id, o) && Touches(s, ServeOne(q), id) && StepConnected(env, s, ServeOne(q)).Next?
    ensures o.OfSession? && o.x.socket == id
    ensures var t, v := StepConnected(env, s, ServeOne(q)).s, AfterAttend(env, s, q, id, o.x);
            Holds(t, id, v.0) && id in t.d.net && t.d.net[id] == v.1
  {
    ServedOwner(env, s, q, id, o);
    ServeIs(env, s, q, id);
    hide Inv, Holds, AfterAttend, Serve;
    var v := AfterAttend(env, s, q, id, o.x);
    HoldsAt(StepConnected(env, s, ServeOne(q)).s, id, if v.0.OfNobody? then AtDropped(|s.d.dropped|) else AtSession(s.c.j), v.0);
  }

  lemma ServedOwner(env: Env, s: Sys, q: Fate, id: SockId, o: Owner)
    requires Inv(env, s) && Holds(s, id, o) && Touches(s, ServeOne(q), id)
    ensures s.c.CScan? && Live(s.d, s.c.j) && o == OfSession(s.d.sessions[s.c.j].value) && o.x.socket == id && id in s.d.net
  {
    OwnerAt(s, id, AtSession(s.c.j), o);
  }

  /** A socket that has just been accepted. */
  lemma JustAccepted(s: Sys, id: SockId)
    requires StepAcceptor(s, AcceptSocket(id)).Next?
    ensures var t := StepAcceptor(s, AcceptSocket(id)).s;
            Holds(t, id, OfConnection(NewConnection(id))) && id in t.d.net && t.d.net[id] == NEW_SOCK
  {
    HoldsAt(StepAcceptor(s, AcceptSocket(id)).s, id, AtAcceptor, OfConnection(NewConnection(id)));
  }

  /** Messages and failures reach the socket, not its holder. */
  lemma ArrivalTouch(s: Sys, e: Event, id: SockId, o: Owner)
    requires (e.Arrive? || e.Break?) && e.id == id && Holds(s, id, o)
    ensures StepEnvironment(s, e).Next?
    ensures var t, k := StepEnvironment(s, e).s, s.d.net[id];
            Holds(t, id, o) && id in t.d.net && t.d.net[id] == if e.Arrive? then k.(inbox := k.inbox + [e.m]) else k.(error := true)
  {
    hide Shows;
    var p :| Sits(s, id, p) && Shows(s, id, p, o);
    SameShows(s, StepEnvironment(s, e).s, id, p, o);
    HoldsAt(StepEnvironment(s, e).s, id, p, o);
  }

  lemma SameShows(s: Sys, t: Sys, id: SockId, p: Spot, o: Owner)
    requires Sits(s, id, p) && Shows(s, id, p, o) && t == s.(d := s.d.(net := t.d.net))
    ensures Sits(t, id, p) && Shows(t, id, p, o)
  {
  }

  /** Only accepting makes a socket known. */
  lemma NetGrows(env: Env, s: Sys, e: Event, id: SockId)
    requires Step(env, s, e).Next? && id !in s.d.net && e != AcceptSocket(id)
    ensures id !in Step(env, s, e).s.d.net
  {
    hide StepScan, StepConnected, StepIncoming;
    if e.ScanOne? {
      ScanNet(env, s, e.q);
    } else if e.PassStart? || e.ServeOne? || e.PassEnd? {
      ConnectedNet(env, s, e);
    } else if !e.Arrive? && !e.Break? && !e.AcceptSocket? && !e.AcceptorLock? && !e.AcceptorPush? {
      IncomingNet(env, s, e);
    }
  }

  lemma ScanNet(env: Env, s: Sys, q: Fate)
    requires StepScan(env, s, q).Next?
    ensures StepScan(env, s, q).s.d.net.Keys == s.d.net.Keys
  {
    hide Visit;
    VisitHolds(env, s.d, s.i.i, q, 0);
  }

  lemma ConnectedNet(env: Env, s: Sys, e: Event)
    requires (e.PassStart? || e.ServeOne? || e.PassEnd?) && StepConnected(env, s, e).Next?
    ensures StepConnected(env, s, e).s.d.net.Keys == s.d.net.Keys
  {
    hide Serve, Sweep;
    PurgeNet(s.d);
    if e.ServeOne? {
      ServeHolds(env, s.d, s.c.j, e.q, 0);
    }
  }

  lemma IncomingNet(env: Env, s: Sys, e: Event)
    requires e.ScanStart? || e.ScanEnd? || e.LockSessions? || e.Append? || e.LockMaps? || e.Register? || e.Finish?
    requires StepIncoming(env, s, e).Next?
    ensures StepIncoming(env, s, e).s.d.net == s.d.net
  {
    hide EmplaceAll, Purge;
    PurgeNet(s.d);
  }
}
