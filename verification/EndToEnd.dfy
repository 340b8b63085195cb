/** From the map files and the database, through registration, to the instructions a player receives. */
module EndToEnd {
  import opened Prelude
  import opened Domain
  import opened LoginData
  import opened Threads
  import opened Routing
  import opened Runs
  import opened HexCodec
  import opened Credentials
  import Handlers
  import Catalogue

  /** The server at place `n` is the one that `m` names; it stores `l`, and its peer reported `l`'s name and hash. */
  ghost predicate Hosts(d: Data, n: int, m: Outbound, l: Location) {
    && m.Instructions? && 0 <= n < |d.servers| && l in d.servers[n].maps
    && d.servers[n].friendlyName == m.friendlyName && d.servers[n].host == m.host && d.servers[n].port == m.port
    && Reports(d.reported, d.servers[n].socket, l)
  }

  /** The login server runs on what the start-up load produced. */
  ghost predicate RunsOn(env: Env, l: Catalogue.Loaded) {
    env.allMaps == l.allMaps && env.idToName == l.idToName
  }

  /** A catalogue entry that carries the name indexed under some id carries that id. */
  lemma NameFixesId(l: Catalogue.Loaded, files: seq<Option<Location>>, a: Location, id: nat)
    requires Catalogue.Indexed(l, files) && Catalogue.Tidy(l.table)
    requires a in l.allMaps && id in l.idToName && l.idToName[id] == a.name
    ensures a.id == id
  {
    var i :| 0 <= i < |l.table.rows| && l.table.rows[i].id == a.id && l.table.rows[i].name == a.name;
    var j :| 0 <= j < |l.table.rows| && l.table.rows[j].id == id && l.table.rows[j].name == a.name;
    assert i == j;
  }

  lemma RouteComesFromFile(env: Env, l: Catalogue.Loaded, files: seq<Option<Location>>, d: Data, id: nat, m: Outbound)
    requires Catalogue.Indexed(l, files) && Catalogue.Tidy(l.table) && RunsOn(env, l) && m.Instructions?
    requires GoodRoute(env, d, id, m.friendlyName, m.host, m.port)
    ensures id in l.idToName && Catalogue.HasRow(l.table.rows, id, l.idToName[id])
    ensures exists f, n :: Catalogue.Loads(files, f, l.idToName[id]) && Hosts(d, n, m, files[f].value.(id := id))
  {
    var n, a :| 0 <= n < |d.servers| && a in d.servers[n].maps && a.name == env.idToName[id]
             && d.servers[n].friendlyName == m.friendlyName && d.servers[n].host == m.host && d.servers[n].port == m.port
             && Handlers.FirstNamed(env.allMaps, a.name) == Some(a) && Reports(d.reported, d.servers[n].socket, a);
    Handlers.FirstNamedNone(env.allMaps, a.name);
    hide Catalogue.HasRow, Catalogue.Tidy, Reports, Handlers.FirstNamed;
    NameFixesId(l, files, a, id);
    var f :| Catalogue.Loads(files, f, a.name) && a == files[f].value.(id := a.id);
    assert Hosts(d, n, m, files[f].value.(id := id));
  }

  /**
   * In every run of a server started on these files and this table: a player who is sent connection
   * instructions selected a character it owns, whose location is a row of the table; the host named is a
   * registered map server that stores the map loaded from a file of that row's name, under that row's id;
   * and that map server itself reported the name and the hash of that file.
   */
  lemma PlayersReachTheirMap(
    t0: Catalogue.Table, files: seq<Option<Location>>, env: Env, t: seq<Sys>, es: seq<Event>, k: nat, m: Outbound)
    requires Catalogue.Tidy(t0) && RunsOn(env, Catalogue.Load(t0, files))
    requires IsRun(env, t, es) && k < |es| && es[k].ServeOne? && m.Instructions? && Sends(t[k], t[k + 1], m)
    ensures exists ch, f, n, name ::
              && Selected(t[k], es[k].q, ch)
              && Catalogue.HasRow(Catalogue.Load(t0, files).table.rows, ch.locationID, name)
              && Catalogue.Loads(files, f, name)
              && Hosts(t[k].d, n, m, files[f].value.(id := ch.locationID))
  {
    assert |t| == |es| + 1;
    hide Catalogue.Load, Catalogue.Indexed, Catalogue.Tidy, Catalogue.HasRow, Catalogue.Loads, Hosts, IsRun, Sends,
         Selected, GoodRoute;
    var l := Catalogue.Load(t0, files);
    Catalogue.LoadIndexes(t0, files);
    Catalogue.LoadTidy(t0, files);
    InstructionsAreRight(env, t, es, k, m);
    var ch :| Selected(t[k], es[k].q, ch) && GoodRoute(env, t[k].d, ch.locationID, m.friendlyName, m.host, m.port);
    RouteComesFromFile(env, l, files, t[k].d, ch.locationID, m);
  }

  /** The id of a parsed map's row is indexed under that map's name. */
  lemma ParsedIsIndexed(l: Catalogue.Loaded, files: seq<Option<Location>>, f: int, id: nat, name: string)
    requires Catalogue.Complete(l, files) && Catalogue.Indexed(l, files) && Catalogue.Tidy(l.table)
    requires Catalogue.Loads(files, f, name) && Catalogue.HasRow(l.table.rows, id, name)
    ensures id in l.idToName && l.idToName[id] == name
  {
    var parsed := Filter(Catalogue.IsParsed, files);
    InFilter(Catalogue.IsParsed, files);
    assert files[f] in parsed;
    var n :| 0 <= n < |parsed| && parsed[n] == files[f];
    var a := l.allMaps[n];
    assert a in l.allMaps && a.name == name;
    var i :| 0 <= i < |l.table.rows| && l.table.rows[i].id == a.id && l.table.rows[i].name == name;
    var j :| 0 <= j < |l.table.rows| && l.table.rows[j].id == id && l.table.rows[j].name == name;
    assert i == j;
  }

  lemma OwedInstructions(env: Env, d: Data, id: nat, m: Outbound, n: nat)
    requires Owed(env, d, id, m) && id in env.idToName && FirstStores(d.servers, n, env.idToName[id])
    ensures m == Instructions(d.servers[n].friendlyName, d.servers[n].host, d.servers[n].port)
  {
    if m.Instructions? {
      var i: nat :| FirstStores(d.servers, i, env.idToName[id])
                 && m == Instructions(d.servers[i].friendlyName, d.servers[i].host, d.servers[i].port);
      OneFirst(d.servers, i, n, env.idToName[id]);
    }
  }

  lemma OneFirst(servers: seq<MapServer>, i: nat, n: nat, name: string)
    requires FirstStores(servers, i, name) && FirstStores(servers, n, name)
    ensures i == n
  {
    hide Stores;
  }

  /**
   * Conversely, in every such run with pointers live and the send delivered: a player who selects its character
   * at the row of a map that some file brought, and that server `n` is the first to store, is sent to server
   * `n`, and its session records the character.
   */
  lemma PlayersAreRouted(
    t0: Catalogue.Table, files: seq<Option<Location>>, env: Env, t: seq<Sys>, es: seq<Event>, k: nat, ch: Character,
    f: int, name: string, n: nat)
    requires Catalogue.Tidy(t0) && RunsOn(env, Catalogue.Load(t0, files))
    requires IsRun(env, t, es) && k < |es| && es[k].ServeOne? && es[k].q.send.Sent? && Picked(t[k], es[k].q, ch)
    requires Catalogue.Loads(files, f, name) && Catalogue.HasRow(Catalogue.Load(t0, files).table.rows, ch.locationID, name)
    requires |t[k].d.servers| <= Room(env) && FirstStores(t[k].d.servers, n, name)
    ensures var d, d', j := t[k].d, t[k + 1].d, t[k].c.j; var x := d.sessions[j].value;
            && x.socket in d'.net && j < |d'.sessions| && d'.sessions[j].Some?
            && d'.net[x.socket].outbox == d.net[x.socket].outbox
                 + [Instructions(d.servers[n].friendlyName, d.servers[n].host, d.servers[n].port)]
            && d'.sessions[j].value.characterID == ch.id
  {
    var l := Catalogue.Load(t0, files);
    Catalogue.LoadIsComplete(t0, files);
    Catalogue.LoadIndexes(t0, files);
    Catalogue.LoadTidy(t0, files);
    hide Catalogue.Load, Catalogue.Complete, Catalogue.Indexed, Catalogue.Tidy, Catalogue.HasRow, Catalogue.Loads,
         FirstStores, Owed, Step, Handlers.UniqueIds;
    ParsedIsIndexed(l, files, f, ch.locationID, name);
    SelectionIsRouted(env, t, es, k, ch);
    var d, x := t[k].d, t[k].d.sessions[t[k].c.j].value;
    var m :| Owed(env, d, ch.locationID, m) && t[k + 1].d.net[x.socket].outbox == d.net[x.socket].outbox + [m]
          && t[k + 1].d.sessions[t[k].c.j].value.characterID == if m.Instructions? then ch.id else x.characterID;
    OwedInstructions(env, d, ch.locationID, m, n);
  }

  /**
   * A player enrolled with a password gets a session exactly when its account is not locked and the
   * decrypted attempt has, under the enrolled salt, the digest of that password.
   */
  lemma EnrolledPlayerLogsIn(
    crypto: Crypto, password: string, salt: seq<byte>, env: Env, c: Connection, k: Sock, q: Handlers.Ask, i: nat)
    requires env.accepts == Checker(crypto) && (c.state.ChallengeSent? || c.state.LoginFailed?)
    requires k.inbox != [] && k.inbox[0].Identity? && Handlers.IsFirst(q.db.players, i, k.inbox[0].username)
    requires q.db.players[i].stored == Enrol(crypto, password, salt)
    ensures Handlers.Dispatch(env, c, k, q).next.OpenSession? <==>
            !q.db.players[i].locked
            && crypto.digest(crypto.decrypt(k.inbox[0].encrypted), salt) == crypto.digest(password, salt)
  {
    hide Handlers.Dispatch, Enrol;
    CredentialRoundTrip(crypto, password, salt, k.inbox[0].encrypted);
    Handlers.SessionOpensIff(env, c, k, q);
    assert Handlers.Proves(env, k, q.db.players, i) <==>
           !q.db.players[i].locked && Accepts(crypto, q.db.players[i].stored, k.inbox[0].encrypted);
  }
}
