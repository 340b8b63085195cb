/** From the catalogue to the instructions a player receives, and the life of map server pointers. */
module Routing {
  import opened Prelude
  import opened Domain
  import opened Handlers
  import opened LoginData
  import opened Threads
  import opened Ownership
  import opened Connections

  /** A peer with this socket reported a map of this name and hash. */
  ghost predicate Reports(reported: map<SockId, seq<Location>>, id: SockId, l: Location) {
    id in reported && exists r :: r in reported[id] && Key(r) == Key(l)
  }

  /** Every map on the list is a catalogue row that the peer reported. */
  ghost predicate Backed(env: Env, reported: map<SockId, seq<Location>>, id: SockId, maps: seq<Location>) {
    forall l :: l in maps ==> FirstNamed(env.allMaps, l.name) == Some(l) && Reports(reported, id, l)
  }

  ghost predicate OffersBacked(env: Env, d: Data) {
    forall x :: 0 <= x < |d.incoming| && d.incoming[x].socket.Some? && d.incoming[x].maps.Some? ==>
      Backed(env, d.reported, d.incoming[x].socket.value, d.incoming[x].maps.value)
  }

  ghost predicate ServersBacked(env: Env, d: Data) {
    forall m :: 0 <= m < |d.servers| ==>
      d.servers[m].maps != [] && Backed(env, d.reported, d.servers[m].socket, d.servers[m].maps)
  }

  /** The server at place `m` stores a map of that name. */
  ghost predicate Stores(servers: seq<MapServer>, m: nat, name: string) {
    m < |servers| && name in Names(servers[m].maps)
  }

  /** The name index: each entry is the place of a server that stores that name. */
  ghost predicate ServedOk(d: Data) {
    forall n :: n in d.served ==> Stores(d.servers, d.served[n].index, n) && d.served[n].generation <= d.generation
  }

  /** Every stored name is served, by the first server that stores it. */
  ghost predicate FirstServes(d: Data) {
    forall m: nat, n :: Stores(d.servers, m, n) ==> n in d.served && d.served[n].index <= m
  }

  /** The storage of `mapServers`: it was replaced if and only if more servers registered than places were reserved. */
  ghost predicate StorageOk(env: Env, d: Data) {
    && (d.generation == 0 ==> d.capacity == Room(env) && |d.servers| <= Room(env))
    && (d.generation > 0 ==> |d.servers| > Room(env) && exists n :: n in d.served && d.served[n].generation == 0)
    && (d.servers != [] ==> d.served != map[]) && |d.servers| <= d.capacity
  }

  ghost predicate CatalogOk(env: Env, d: Data) {
    OffersBacked(env, d) && ServersBacked(env, d) && ServedOk(d) && FirstServes(d) && StorageOk(env, d)
  }

  /** No pointer in `mapNameToConnection` dangles. */
  ghost predicate PointersLive(d: Data) {
    forall n :: n in d.served ==> d.served[n].generation == d.generation
  }

  /** Where a connection's offer comes from. */
  lemma DispatchMaps(env: Env, c: Connection, k: Sock, q: Ask)
    ensures var e := Dispatch(env, c, k, q);
            || e.conn.maps == c.maps
            || (c.state.MapList? && k.inbox != [] && k.inbox[0].AdvertiseMaps?
                && e.conn.maps == Some(Offer(k.inbox[0].maps, env.allMaps, q.served)))
  {
    hide Offer, FirstPlayer;
  }

  lemma OfferBacked(env: Env, reported: map<SockId, seq<Location>>, id: SockId, theirs: seq<Location>, served: set<string>)
    ensures Backed(env, reported[id := theirs], id, Offer(theirs, env.allMaps, served))
  {
    hide Offer, FirstNamed;
    OfferRows(theirs, env.allMaps, served);
    forall l | l in Offer(theirs, env.allMaps, served)
      ensures Reports(reported[id := theirs], id, l)
    {
      OfferAnswers(theirs, env.allMaps, served, l);
    }
  }

  /** Another peer's report does not disturb what is backed. */
  lemma OtherReport(env: Env, reported: map<SockId, seq<Location>>, id: SockId, maps: seq<Location>, other: SockId, r: seq<Location>)
    requires Backed(env, reported, id, maps) && other != id
    ensures Backed(env, reported[other := r], id, maps)
  {
  }

  /** What `Visit` leaves alone, and what it can do to the offers. */
  lemma VisitShape(env: Env, d: Data, i: nat, q: Fate)
    requires i < |d.incoming|
    ensures var v := Visit(env, d, i, q); var c := d.incoming[i];
            !v.Fault? ==>
              && v.d.servers == d.servers && v.d.served == d.served && v.d.generation == d.generation
              && v.d.capacity == d.capacity && |v.d.incoming| == |d.incoming|
              && v.d.incoming == d.incoming[i := v.d.incoming[i]]
              && (v.d.incoming[i].socket.Some? ==> v.d.incoming[i].socket == c.socket)
              && (|| (v.d.reported == d.reported && v.d.incoming[i].maps == c.maps)
                  || (c.state.MapList? && c.socket.Some? && c.socket.value in d.net && d.net[c.socket.value].inbox != []
                      && d.net[c.socket.value].inbox[0].AdvertiseMaps?
                      && v.d.reported == d.reported[c.socket.value := d.net[c.socket.value].inbox[0].maps]
                      && (v.d.incoming[i].maps == c.maps
                          || v.d.incoming[i].maps
                             == Some(Offer(d.net[c.socket.value].inbox[0].maps, env.allMaps, d.served.Keys)))))
  {
    hide Dispatch, Offer;
    var c := d.incoming[i];
    if c.socket.Some? && c.socket.value in d.net {
      var k := d.net[c.socket.value];
      DispatchMaps(env, c, k, Ask(q.send, q.db, d.served.Keys));
      DispatchKeepsSocket(env, c, k, Ask(q.send, q.db, d.served.Keys));
    }
  }

  lemma ScanKeepsCatalog(env: Env, s: Sys, q: Fate)
    requires CatalogOk(env, s.d) && ConnsOk(s) && Exclusive(s) && StepScan(env, s, q).Next?
    ensures CatalogOk(env, StepScan(env, s, q).s.d)
  {
    hide Visit, Offer, Backed, Sound;
    var d, i := s.d, s.i.i;
    var v, c := Visit(env, d, i, q), d.incoming[i];
    VisitShape(env, d, i, q);
    assert !Busy(s.i, i) && Coherent(c);
    if v.d.reported != d.reported || v.d.incoming[i].maps != c.maps {
      var id, theirs := c.socket.value, d.net[c.socket.value].inbox[0].maps;
      OfferBacked(env, d.reported, id, theirs, d.served.Keys);
      forall x | 0 <= x < |d.incoming| && x != i && d.incoming[x].socket.Some? && d.incoming[x].maps.Some?
        ensures Backed(env, v.d.reported, d.incoming[x].socket.value, d.incoming[x].maps.value)
      {
        OtherReport(env, d.reported, d.incoming[x].socket.value, d.incoming[x].maps.value, id, theirs);
      }
      forall m | 0 <= m < |d.servers|
        ensures Backed(env, v.d.reported, d.servers[m].socket, d.servers[m].maps)
      {
        OtherReport(env, d.reported, d.servers[m].socket, d.servers[m].maps, id, theirs);
      }
    }
  }

  lemma EnlistKeepsBacked(env: Env, d: Data, i: nat, spare: nat)
    requires i < |d.incoming| && Enrollable(d.incoming[i]) && d.incoming[i].maps.value != []
    requires OffersBacked(env, d) && ServersBacked(env, d)
    ensures OffersBacked(env, Enlist(d, i, spare)) && ServersBacked(env, Enlist(d, i, spare))
  {
    hide Backed, EmplaceAll;
  }

  lemma EnlistKeepsStorage(env: Env, d: Data, i: nat, spare: nat)
    requires i < |d.incoming| && Enrollable(d.incoming[i]) && d.incoming[i].maps.value != []
    requires OffersBacked(env, d) && StorageOk(env, d) && ServedOk(d)
    ensures StorageOk(env, Enlist(d, i, spare))
  {
    hide FirstNamed, Backed, Stores;
    var t := Enlist(d, i, spare);
    var maps := d.incoming[i].maps.value;
    EnlistServed(d, i, spare);
    assert maps[0] in maps && maps[0].name in t.served;
    SomeMapLoaded(env, d, i);
    if t.generation > 0 {
      var n :| n in d.served && d.served[n].generation == 0;
      assert n in t.served && t.served[n].generation == 0;
    }
  }

  /** Registration: the new entry is backed, its names find a server that stores them, the storage stays accounted for. */
  lemma EnlistKeepsCatalog(env: Env, d: Data, i: nat, spare: nat)
    requires i < |d.incoming| && Enrollable(d.incoming[i]) && d.incoming[i].maps.value != []
    requires CatalogOk(env, d)
    ensures CatalogOk(env, Enlist(d, i, spare))
  {
    hide OffersBacked, ServersBacked, ServedOk, FirstServes, StorageOk, Enlist;
    EnlistKeepsBacked(env, d, i, spare);
    EnlistServed(d, i, spare);
    EnlistServesFirst(d, i, spare);
    EnlistKeepsStorage(env, d, i, spare);
  }

  lemma SomeMapLoaded(env: Env, d: Data, i: nat)
    requires i < |d.incoming| && Enrollable(d.incoming[i]) && d.incoming[i].maps.value != []
    requires OffersBacked(env, d)
    ensures env.allMaps != []
  {
    var l := d.incoming[i].maps.value[0];
    assert l in d.incoming[i].maps.value;
    FirstNamedNone(env.allMaps, l.name);
  }

  lemma EnlistServed(d: Data, i: nat, spare: nat)
    requires i < |d.incoming| && Enrollable(d.incoming[i]) && ServedOk(d)
    ensures ServedOk(Enlist(d, i, spare))
    ensures Enlist(d, i, spare).served.Keys == d.served.Keys + Names(d.incoming[i].maps.value)
    ensures forall n :: n in d.served ==> Enlist(d, i, spare).served[n] == d.served[n]
  {
    var t := Enlist(d, i, spare);
    forall n | n in t.served
      ensures Stores(t.servers, t.served[n].index, n) && t.served[n].generation <= t.generation
    {
      if n in d.served {
        assert Stores(d.servers, d.served[n].index, n);
      }
    }
  }

  /** A registration serves the names that are new with it, and leaves the others to the earlier servers. */
  lemma EnlistServesFirst(d: Data, i: nat, spare: nat)
    requires i < |d.incoming| && Enrollable(d.incoming[i]) && ServedOk(d) && FirstServes(d)
    ensures FirstServes(Enlist(d, i, spare))
  {
    var t := Enlist(d, i, spare);
    forall m: nat, n | Stores(t.servers, m, n)
      ensures n in t.served && t.served[n].index <= m
    {
      if m < |d.servers| {
        assert Stores(d.servers, m, n);
      } else if n in d.served {
        assert Stores(d.servers, d.served[n].index, n);
      }
    }
  }

  /** `emplace_back` replaces the storage exactly when there is no room left, and afterwards there is. */
  lemma GrowsWhenFull(env: Env, d: Data, i: nat, spare: nat)
    requires i < |d.incoming| && Enrollable(d.incoming[i]) && CatalogOk(env, d)
    ensures var t := Enlist(d, i, spare);
            && (t.generation == d.generation <==> |d.servers| < d.capacity)
            && |t.servers| == |d.servers| + 1 <= t.capacity
            && t.servers[..|d.servers|] == d.servers && t.servers[|d.servers|] == Record(d.incoming[i])
  {
    hide EmplaceAll;
  }

  lemma PurgeKeepsCatalog(env: Env, d: Data)
    requires CatalogOk(env, d)
    ensures CatalogOk(env, Purge(d))
  {
    hide Backed, Reports;
    var t := Purge(d);
    forall k | 0 <= k < |t.incoming| && t.incoming[k].socket.Some? && t.incoming[k].maps.Some?
      ensures Backed(env, t.reported, t.incoming[k].socket.value, t.incoming[k].maps.value)
    {
      var y := FilterPlace(NotDone, d.incoming, k);
    }
  }

  lemma IncomingKeepsCatalog(env: Env, s: Sys, e: Event)
    requires e.ScanStart? || e.ScanEnd? || e.LockSessions? || e.Append? || e.LockMaps? || e.Register? || e.Finish?
    requires CatalogOk(env, s.d) && ConnsOk(s) && StepIncoming(env, s, e).Next?
    ensures CatalogOk(env, StepIncoming(env, s, e).s.d)
  {
    hide Backed, Sound, Enlist, Purge, Stores;
    match e
    case ScanEnd(purge) => PurgeKeepsCatalog(env, s.d);
    case Register(spare) => EnlistKeepsCatalog(env, s.d, s.i.i, spare);
    case _ =>
  }

  /** The fields that the catalogue's invariant is about. */
  ghost predicate SameCatalog(d: Data, t: Data) {
    && t.servers == d.servers && t.served == d.served && t.generation == d.generation
    && t.capacity == d.capacity && t.reported == d.reported
  }

  lemma ServeLeavesCatalog(env: Env, d: Data, j: nat, q: Fate)
    requires j < |d.sessions|
    ensures var v := Serve(env, d, j, q); !v.Crash? ==> SameCatalog(d, v.d) && v.d.incoming == d.incoming
  {
    hide Attend, Routes;
  }

  lemma ConnectedLeavesCatalog(env: Env, s: Sys, e: Event)
    requires e.PassStart? || e.ServeOne? || e.PassEnd?
    requires StepConnected(env, s, e).Next?
    ensures var t := StepConnected(env, s, e).s; SameCatalog(s.d, t.d) && t.d.incoming == s.d.incoming
  {
    hide Serve;
    if e.ServeOne? {
      ServeLeavesCatalog(env, s.d, s.c.j, e.q);
    }
  }

  lemma AcceptKeepsCatalog(env: Env, d: Data, t: Data, id: SockId)
    requires CatalogOk(env, d) && SameCatalog(d, t)
    requires t.incoming == d.incoming || t.incoming == d.incoming + [NewConnection(id)]
    ensures CatalogOk(env, t)
  {
    hide Backed;
    assert OffersBacked(env, t);
    assert ServersBacked(env, t) && ServedOk(t) && StorageOk(env, t);
  }

  lemma OthersKeepCatalog(env: Env, s: Sys, e: Event)
    requires e.Arrive? || e.Break? || e.AcceptSocket? || e.AcceptorLock? || e.AcceptorPush?
          || e.PassStart? || e.ServeOne? || e.PassEnd?
    requires CatalogOk(env, s.d) && Step(env, s, e).Next?
    ensures CatalogOk(env, Step(env, s, e).s.d)
  {
    hide CatalogOk, StepConnected, StepScan, StepIncoming;
    if e.PassStart? || e.ServeOne? || e.PassEnd? {
      ConnectedLeavesCatalog(env, s, e);
    }
    AcceptKeepsCatalog(env, s.d, Step(env, s, e).s.d, if s.a.AIdle? then 0 else s.a.id);
  }

  lemma CatalogKept(env: Env, s: Sys, e: Event)
    requires CatalogOk(env, s.d) && ConnsOk(s) && Exclusive(s) && Step(env, s, e).Next?
    ensures CatalogOk(env, Step(env, s, e).s.d)
  {
    hide StepEnvironment, StepAcceptor, StepScan, StepIncoming, StepConnected, CatalogOk, ConnsOk, Exclusive;
    if e.ScanOne? {
      ScanKeepsCatalog(env, s, e.q);
    } else if e.ScanStart? || e.ScanEnd? || e.LockSessions? || e.Append? || e.LockMaps? || e.Register? || e.Finish? {
      IncomingKeepsCatalog(env, s, e);
    } else {
      OthersKeepCatalog(env, s, e);
    }
  }

  /** Pointers are sound exactly as long as no more servers registered than places were reserved. */
  lemma PointersLiveIff(env: Env, d: Data)
    requires CatalogOk(env, d)
    ensures PointersLive(d) <==> |d.servers| <= Room(env)
  {
    if d.generation > 0 {
      var n :| n in d.served && d.served[n].generation == 0;
      assert d.served[n].generation != d.generation;
    }
  }

  /** A route to a server is a route to one that stores the location's map, a catalogue row it reported itself. */
  ghost predicate GoodRoute(env: Env, d: Data, location: nat, friendlyName: string, host: string, port: nat) {
    location in env.idToName &&
    exists m, l ::
      0 <= m < |d.servers| && l in d.servers[m].maps && l.name == env.idToName[location]
      && d.servers[m].friendlyName == friendlyName && d.servers[m].host == host && d.servers[m].port == port
      && FirstNamed(env.allMaps, l.name) == Some(l) && Reports(d.reported, d.servers[m].socket, l)
  }

  lemma RouteIsGood(env: Env, d: Data, location: nat)
    requires CatalogOk(env, d)
    ensures var r := RouteFor(env, d.servers, d.served, d.generation, location);
            && (r.To? ==> GoodRoute(env, d, location, r.friendlyName, r.host, r.port))
            && (r.Dangling? ==> !PointersLive(d))
  {
    if location in env.idToName && env.idToName[location] in d.served {
      var name := env.idToName[location];
      var m := d.served[name].index;
      assert Stores(d.servers, m, name);
      var l :| l in d.servers[m].maps && l.name == name;
      assert Backed(env, d.reported, d.servers[m].socket, d.servers[m].maps);
    }
  }

  /** The first server, in the order of registration, that stores a map of that name. */
  ghost predicate FirstStores(servers: seq<MapServer>, m: nat, name: string) {
    Stores(servers, m, name) && forall i: nat :: i < m ==> !Stores(servers, i, name)
  }

  /**
   * While no pointer dangles, the route is exact: no route for an id outside the index; the first server that
   * stores the indexed name when there is one; and unserved when there is none.
   */
  lemma RouteIsExact(env: Env, d: Data, location: nat)
    requires CatalogOk(env, d) && PointersLive(d)
    ensures var r := RouteFor(env, d.servers, d.served, d.generation, location);
            && (r.UnknownMap? <==> location !in env.idToName)
            && (location in env.idToName ==>
                  && (r.Unserved? <==> forall m: nat :: !Stores(d.servers, m, env.idToName[location]))
                  && (r.To? <==> exists m: nat :: FirstStores(d.servers, m, env.idToName[location]))
                  && forall m: nat :: FirstStores(d.servers, m, env.idToName[location]) ==>
                       r == To(d.servers[m].friendlyName, d.servers[m].host, d.servers[m].port))
  {
    hide OffersBacked, ServersBacked, StorageOk, Names;
    if location in env.idToName {
      var name := env.idToName[location];
      if name in d.served {
        var m := d.served[name].index;
        assert Stores(d.servers, m, name);
        assert FirstStores(d.servers, m, name);
      }
    }
  }

  // --- Pointer stability ---

  /** The names a connection has been offered and has not yet acknowledged. */
  ghost function Pending(c: Connection): set<string> {
    if c.state.MapWaitAck? && c.maps.Some? then Names(c.maps.value) else {}
  }

  /** No two connections hold offers of the same map. */
  ghost predicate NoSharedOffers(d: Data) {
    forall x, y :: 0 <= x < |d.incoming| && 0 <= y < |d.incoming| && x != y ==>
      Pending(d.incoming[x]) !! Pending(d.incoming[y])
  }

  ghost predicate Stable(env: Env, d: Data) {
    && (forall x :: 0 <= x < |d.incoming| ==> Pending(d.incoming[x]) !! d.served.Keys)
    && |d.servers| <= |d.served.Keys|
    && d.served.Keys <= Names(env.allMaps)
  }

  lemma {:induction false} NamesBound(maps: seq<Location>)
    ensures |Names(maps)| <= |maps|
  {
    if maps == [] {
      assert Names(maps) == {};
    } else {
      var n := |maps| - 1;
      NamesBound(maps[..n]);
      assert maps == maps[..n] + [maps[n]];
      assert Names(maps) == Names(maps[..n]) + {maps[n].name};
    }
  }

  lemma SubsetSize(a: set<string>, b: set<string>)
    requires a <= b
    ensures |a| <= |b|
  {
    assert b == a + (b - a);
  }

  lemma StableBound(env: Env, d: Data)
    requires Stable(env, d)
    ensures |d.servers| <= |env.allMaps|
  {
    NamesBound(env.allMaps);
    SubsetSize(d.served.Keys, Names(env.allMaps));
  }

  lemma BackedNames(env: Env, reported: map<SockId, seq<Location>>, id: SockId, maps: seq<Location>)
    requires Backed(env, reported, id, maps)
    ensures Names(maps) <= Names(env.allMaps)
  {
    forall l | l in maps
      ensures l in env.allMaps
    {
      FirstNamedNone(env.allMaps, l.name);
    }
  }

  lemma EnlistFrame(d: Data, i: nat, spare: nat)
    requires i < |d.incoming| && Enrollable(d.incoming[i])
    ensures var t := Enlist(d, i, spare);
            && |t.servers| == |d.servers| + 1
            && t.incoming == d.incoming[i := d.incoming[i].(socket := None, maps := Some([]))]
  {
    hide EmplaceAll;
  }

  /** A name that is newly served makes room for the new server in the count. */
  lemma FreshNameCounts(old_: set<string>, new_: set<string>, name: string)
    requires old_ <= new_ && name in new_ && name !in old_
    ensures |old_| + 1 <= |new_|
  {
    SubsetSize(old_ + {name}, new_);
  }

  lemma OthersPending(d: Data, i: nat, x: nat)
    requires i < |d.incoming| && x < |d.incoming| && x != i && NoSharedOffers(d)
    ensures Pending(d.incoming[x]) !! Pending(d.incoming[i])
  {
  }

  lemma EnlistKeepsApart(d: Data, i: nat, spare: nat)
    requires i < |d.incoming| && Enrollable(d.incoming[i]) && d.incoming[i].state.MapWaitAck?
    requires ServedOk(d) && NoSharedOffers(d)
    requires forall x :: 0 <= x < |d.incoming| ==> Pending(d.incoming[x]) !! d.served.Keys
    ensures forall x :: 0 <= x < |d.incoming| ==> Pending(Enlist(d, i, spare).incoming[x]) !! Enlist(d, i, spare).served.Keys
  {
    var t := Enlist(d, i, spare);
    EnlistServed(d, i, spare);
    EnlistFrame(d, i, spare);
    hide Enlist, Names, ServedOk, NoSharedOffers;
    forall x | 0 <= x < |t.incoming|
      ensures Pending(t.incoming[x]) !! t.served.Keys
    {
      if x == i {
        assert Pending(t.incoming[x]) == {} by { NoNames(); }
      } else {
        OthersPending(d, i, x);
      }
    }
  }

  lemma NoNames()
    ensures Names([]) == {}
  {
  }

  lemma EnlistGrows(env: Env, d: Data, i: nat, spare: nat)
    requires i < |d.incoming| && Enrollable(d.incoming[i]) && d.incoming[i].maps.value != []
    requires d.incoming[i].state.MapWaitAck? && ServedOk(d) && Stable(env, d)
    ensures |Enlist(d, i, spare).servers| <= |Enlist(d, i, spare).served.Keys|
  {
    var t, maps := Enlist(d, i, spare), d.incoming[i].maps.value;
    EnlistServed(d, i, spare);
    EnlistFrame(d, i, spare);
    hide Enlist, ServedOk;
    var name := maps[0].name;
    assert maps[0] in maps && name in Pending(d.incoming[i]);
    FreshNameCounts(d.served.Keys, t.served.Keys, name);
  }

  lemma EnlistKeepsStable(env: Env, d: Data, i: nat, spare: nat)
    requires i < |d.incoming| && Enrollable(d.incoming[i]) && d.incoming[i].maps.value != []
    requires d.incoming[i].state.MapWaitAck? && CatalogOk(env, d) && Stable(env, d) && NoSharedOffers(d)
    ensures Stable(env, Enlist(d, i, spare))
  {
    EnlistGrows(env, d, i, spare);
    EnlistKeepsApart(d, i, spare);
    EnlistServed(d, i, spare);
    EnlistFrame(d, i, spare);
    BackedNames(env, d.reported, d.incoming[i].socket.value, d.incoming[i].maps.value);
    hide Enlist, Backed, Names, Pending, ServedOk, StorageOk, ServersBacked, NoSharedOffers;
  }

  lemma ScanKeepsStable(env: Env, s: Sys, q: Fate)
    requires Stable(env, s.d) && StepScan(env, s, q).Next? && ConnsOk(s)
    ensures Stable(env, StepScan(env, s, q).s.d)
  {
    hide Visit, Offer, Sound, FirstNamed;
    var d, i := s.d, s.i.i;
    var v, c := Visit(env, d, i, q), d.incoming[i];
    VisitShape(env, d, i, q);
    assert !Busy(s.i, i) && Coherent(c);
    if c.socket.Some? && c.socket.value in d.net && d.net[c.socket.value].inbox != []
       && d.net[c.socket.value].inbox[0].AdvertiseMaps? {
      OfferRows(d.net[c.socket.value].inbox[0].maps, env.allMaps, d.served.Keys);
    }
    VisitPending(env, d, i, q);
  }

  /** A visit never turns an old offer into a pending one. */
  lemma VisitPending(env: Env, d: Data, i: nat, q: Fate)
    requires i < |d.incoming| && Coherent(d.incoming[i])
    ensures var v := Visit(env, d, i, q);
            !v.Fault? && v.d.incoming[i].maps == d.incoming[i].maps ==> Pending(v.d.incoming[i]) <= Pending(d.incoming[i])
  {
    hide Offer, FirstPlayer, Reported;
  }

  lemma IncomingKeepsStable(env: Env, s: Sys, e: Event)
    requires e.ScanStart? || e.ScanEnd? || e.LockSessions? || e.Append? || e.LockMaps? || e.Register? || e.Finish?
    requires CatalogOk(env, s.d) && ConnsOk(s) && StepIncoming(env, s, e).Next?
    requires Stable(env, s.d) && NoSharedOffers(s.d)
    ensures Stable(env, StepIncoming(env, s, e).s.d)
  {
    hide Sound, Enlist, CatalogOk, Names, NoSharedOffers;
    match e
    case Register(spare) => EnlistKeepsStable(env, s.d, s.i.i, spare);
    case ScanEnd(purge) =>
      forall k | 0 <= k < |Filter(NotDone, s.d.incoming)|
        ensures Pending(Filter(NotDone, s.d.incoming)[k]) !! s.d.served.Keys
      {
        var y := FilterPlace(NotDone, s.d.incoming, k);
      }
    case _ =>
  }

  lemma OthersKeepStable(env: Env, s: Sys, e: Event)
    requires e.Arrive? || e.Break? || e.AcceptSocket? || e.AcceptorLock? || e.AcceptorPush?
          || e.PassStart? || e.ServeOne? || e.PassEnd?
    requires Stable(env, s.d) && Step(env, s, e).Next?
    ensures Stable(env, Step(env, s, e).s.d)
  {
    hide StepConnected, StepScan, StepIncoming, Names;
    if e.PassStart? || e.ServeOne? || e.PassEnd? {
      ConnectedLeavesCatalog(env, s, e);
    }
  }

  /** While no two pending offers share a map, every registration brings a new name, so the bound holds. */
  lemma StableKept(env: Env, s: Sys, e: Event)
    requires CatalogOk(env, s.d) && ConnsOk(s) && Step(env, s, e).Next?
    requires Stable(env, s.d) && NoSharedOffers(s.d)
    ensures Stable(env, Step(env, s, e).s.d)
  {
    hide StepEnvironment, StepAcceptor, StepScan, StepIncoming, StepConnected, CatalogOk, ConnsOk, Stable, NoSharedOffers;
    if e.ScanOne? {
      ScanKeepsStable(env, s, e.q);
    } else if e.ScanStart? || e.ScanEnd? || e.LockSessions? || e.Append? || e.LockMaps? || e.Register? || e.Finish? {
      IncomingKeepsStable(env, s, e);
    } else {
      OthersKeepStable(env, s, e);
    }
  }
}
