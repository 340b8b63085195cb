/** The shared containers of the login server and the effect of each critical section on them. */
module LoginData {
  import opened Prelude
  import opened Domain
  import opened Handlers

  /**
   * A pointer into the `mapServers` vector: an element's place, and the storage it was taken from. The
   * vector's storage is replaced when it grows past its capacity, and older pointers then dangle.
   */
  datatype Ptr = Ptr(generation: nat, index: nat)

  /**
   * The containers (`net` maps each accepted socket to its state; `index` is `usernameToPlayerSession`;
   * `served` is `mapNameToConnection`), and three histories: `created` counts session objects, `reported`
   * remembers the list each map server sent, `dropped` holds the sockets destroyed so far.
   */
  datatype Data = Data(
    net: map<SockId, Sock>,
    incoming: seq<Connection>,
    sessions: seq<Option<Session>>,
    index: map<string, nat>,
    servers: seq<MapServer>,
    served: map<string, Ptr>,
    generation: nat,
    capacity: nat,
    created: nat,
    reported: map<SockId, seq<Location>>,
    dropped: seq<SockId>)

  /** The state after `mapServers.reserve(allMaps.size())`, before any connection. */
  ghost function Start(env: Env): Data {
    Data(map[], [], [], map[], [], map[], 0, Room(env), 0, map[], [])
  }

  /** What the environment decides for one visit: the send, the rows, the address of a new object, spare capacity. */
  datatype Fate = Fate(send: SendResult, db: Db, addr: nat, spare: nat)

  datatype Visited = Continue(d: Data) | WantSession(d: Data, s: Session) | WantServer(d: Data) | Fault

  predicate IsDone(c: Connection) {
    c.state.Done?
  }

  predicate NotDone(c: Connection) {
    !c.state.Done?
  }

  predicate IsLive(s: Option<Session>) {
    s.Some?
  }

  /** The sockets that a list of connections still holds. */
  ghost function Sockets(cs: seq<Connection>): seq<SockId> {
    if cs == [] then []
    else
      var rest, last := Sockets(cs[..|cs| - 1]), cs[|cs| - 1];
      if last.socket.Some? then rest + [last.socket.value] else rest
  }

  ghost function Accept(d: Data, id: SockId): Data {
    d.(incoming := d.incoming + [NewConnection(id)])
  }

  ghost function Reported(d: Data, c: Connection, k: Sock, id: SockId): map<SockId, seq<Location>> {
    if c.state.MapList? && k.inbox != [] && k.inbox[0].AdvertiseMaps? then d.reported[id := k.inbox[0].maps]
    else d.reported
  }

  /** One turn of the loop in `processIncoming`, up to the point where a second lock is needed. */
  ghost function Visit(env: Env, d: Data, i: nat, q: Fate): Visited
    requires i < |d.incoming|
  {
    var c := d.incoming[i];
    if c.state.Done? then Continue(d)
    else if c.socket.None? || c.socket.value !in d.net then Fault
    else
      var id := c.socket.value;
      var k := d.net[id];
      if k.error then Continue(Close(d, i))
      else
        var e := Dispatch(env, c, k, Ask(q.send, q.db, d.served.Keys));
        var d' := d.(net := d.net[id := e.sock], incoming := d.incoming[i := e.conn], reported := Reported(d, c, k, id));
        match e.next
        case Stay => Continue(d')
        case Enrol => WantServer(d')
        case Abort => Fault
        case OpenSession(playerID, username) =>
          WantSession(
            d'.(incoming := d.incoming[i := e.conn.(socket := None)], created := d.created + 1),
            Session(q.addr, d.created % GUIDS, playerID, username, id, 0))
  }

  ghost function Close(d: Data, i: nat): Data
    requires i < |d.incoming|
  {
    d.(incoming := d.incoming[i := d.incoming[i].(state := Done)])
  }

  /** The section guarded by `playerSessionMutex` in `processLoginAttempt`; `emplace` keeps an existing entry. */
  ghost function AppendSession(d: Data, s: Session): Data {
    d.(sessions := d.sessions + [Some(s)],
       index := if s.username in d.index then d.index else d.index[s.username := s.addr])
  }

  ghost function EmplaceAll(served: map<string, Ptr>, maps: seq<Location>, p: Ptr): map<string, Ptr> {
    map n | n in served.Keys + Names(maps) :: if n in served then served[n] else p
  }

  /** The section guarded by `mapServersMutex` in `processMapWaitAckSocket`. */
  ghost function Enlist(d: Data, i: nat, spare: nat): Data
    requires i < |d.incoming| && Enrollable(d.incoming[i])
  {
    var c := d.incoming[i];
    var full := |d.servers| >= d.capacity;
    var generation := if full then d.generation + 1 else d.generation;
    d.(servers := d.servers + [Record(c)],
       served := EmplaceAll(d.served, c.maps.value, Ptr(generation, |d.servers|)),
       generation := generation,
       capacity := if full then |d.servers| + 1 + spare else d.capacity,
       incoming := d.incoming[i := c.(socket := None, maps := Some([]))])
  }

  ghost function Purge(d: Data): Data {
    d.(incoming := Filter(NotDone, d.incoming),
       dropped := d.dropped + Sockets(Filter(IsDone, d.incoming)))
  }

  /** Where characters at a location play: the id-to-name index, then the name-to-server index. */
  function RouteFor(env: Env, servers: seq<MapServer>, served: map<string, Ptr>, generation: nat, location: nat): Route {
    if location !in env.idToName then UnknownMap
    else
      var name := env.idToName[location];
      if name !in served then Unserved
      else
        var p := served[name];
        if p.generation != generation || p.index >= |servers| then Dangling
        else To(servers[p.index].friendlyName, servers[p.index].host, servers[p.index].port)
  }

  function Routes(env: Env, servers: seq<MapServer>, served: map<string, Ptr>, generation: nat): nat -> Route {
    (location: nat) => RouteFor(env, servers, served, generation, location)
  }

  datatype Served = Alive(d: Data) | Gone(d: Data) | Crash

  /** One turn of the loop in `processConnected`. */
  ghost function Serve(env: Env, d: Data, j: nat, q: Fate): Served
    requires j < |d.sessions|
  {
    if d.sessions[j].None? || d.sessions[j].value.socket !in d.net then Crash
    else
      var s := d.sessions[j].value;
      var k := d.net[s.socket];
      if k.error then
        Gone(d.(sessions := d.sessions[j := None], index := d.index - {s.username},
                dropped := d.dropped + [s.socket]))
      else
        match Attend(s, k, Ask(q.send, q.db, {}), Routes(env, d.servers, d.served, d.generation))
        case ReadDangling => Crash
        case Attended(s', k') => Alive(d.(sessions := d.sessions[j := Some(s')], net := d.net[s.socket := k']))
  }

  ghost function Sweep(d: Data): Data {
    d.(sessions := Filter(IsLive, d.sessions))
  }
}
