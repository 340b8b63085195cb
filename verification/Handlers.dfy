/** What the login server does to one incoming connection, and to one live session. */
module Handlers {
  import opened Prelude
  import opened Domain
  import opened Credentials

  /** What happens to the connection after its handler. */
  datatype Next =
    | Stay
    | OpenSession(playerID: nat, username: string)  // the socket moves to a new player session
    | Enrol                                         // the socket moves to a new map server entry
    | Abort                                         // a REQUIRE failed

  datatype Effect = Effect(conn: Connection, sock: Sock, next: Next)

  /** Everything a handler learns from outside: the fate of its send, the database rows, the served map names. */
  datatype Ask = Ask(send: SendResult, db: Db, served: set<string>)

  // --- Per-state handlers ---

  function FirstPlayer(rows: seq<Player>, username: string): Option<Player> {
    if rows == [] then None
    else if rows[0].username == username then Some(rows[0])
    else FirstPlayer(rows[1..], username)
  }

  function Refuse(c: Connection, k: Sock, r: SendResult): Effect {
    var c' := c.(state := LoginFailed, attempts := c.attempts + 1);
    Effect(c', Transmit(k, AuthResponse(false, MAX_ATTEMPTS - c'.attempts), r), Stay)
  }

  function LockOut(c: Connection, k: Sock, r: SendResult): Effect {
    Effect(c.(state := Done), Transmit(k, AuthResponse(false, 0), r).(connected := false), Stay)
  }

  function Admit(c: Connection, k: Sock, playerID: nat, username: string, r: SendResult): Effect {
    Effect(c, Transmit(k, AuthResponse(true, MAX_ATTEMPTS - c.attempts), r), OpenSession(playerID, username))
  }

  function LoginAttempt(env: Env, c: Connection, k: Sock, m: Inbound, q: Ask): Effect
    requires m.Identity?
  {
    match FirstPlayer(q.db.players, m.username)
    case None => Refuse(c, k, q.send)
    case Some(p) =>
      if p.locked then LockOut(c, k, q.send)
      else if env.accepts(p.stored, m.encrypted) then Admit(c, k, p.id, m.username, q.send)
      else Refuse(c, k, q.send)
  }

  /** The check that ends both login states: a connection out of attempts is done. */
  function Exhaust(e: Effect): Effect {
    if e.next.Stay? && e.conn.attempts == MAX_ATTEMPTS then e.(conn := e.conn.(state := Done)) else e
  }

  function OnFresh(c: Connection, k: Sock, q: Ask): Effect {
    var k' := Transmit(k, Challenge, q.send);
    Effect(c.(state := if k'.error then Done else ChallengeSent), k', Stay)
  }

  function OnChallengeSent(env: Env, c: Connection, k: Sock, m: Inbound, q: Ask): Effect {
    if m.Identity? then Exhaust(LoginAttempt(env, c, k, m, q))
    else if m.Empty? || m.VersionMismatch? then Effect(c.(state := Done), k, Stay)
    else if m.RegistrationRequest? then
      var c' := c.(name := Some(m.name), address := Some(m.address), port := Some(m.port));
      if q.send.Sent? then
        Exhaust(Effect(c'.(state := MapList), Transmit(k, RegistrationResponse, q.send), Stay))
      else
        Effect(c', Transmit(k, RegistrationResponse, q.send).(unanswered := k.unanswered + 1), Stay)
    else Exhaust(Refuse(c, k, q.send))
  }

  function OnLoginFailed(env: Env, c: Connection, k: Sock, m: Inbound, q: Ask): Effect {
    if m.Identity? then Exhaust(LoginAttempt(env, c, k, m, q))
    else if m.Empty? then Effect(c.(state := Done), k, Stay)
    else Exhaust(Refuse(c, k, q.send))
  }

  function OnMapList(env: Env, c: Connection, k: Sock, m: Inbound, q: Ask): Effect {
    if !m.AdvertiseMaps? then Effect(c.(state := Done), k, Stay)
    else
      var offer := Offer(m.maps, env.allMaps, q.served);
      if offer == [] then Effect(c.(state := Done), Transmit(k, NotNeeded, q.send), Stay)
      else Effect(c.(maps := Some(offer), state := MapWaitAck), Transmit(k, RequiredMaps(offer), q.send), Stay)
  }

  /** Any bytes at all count as the acknowledgement: the opcode is never looked at. */
  function OnMapWaitAck(c: Connection, k: Sock, m: Inbound): Effect {
    if m.Empty? then Effect(c.(state := Done), k, Stay) else Effect(c, k, Enrol)
  }

  /** One visit to a connection that is not done and whose socket is sound. */
  function Dispatch(env: Env, c: Connection, k: Sock, q: Ask): Effect {
    if c.state.Done? then Effect(c, k, Stay)
    else if c.state.Fresh? then OnFresh(c, k, q)
    else if k.inbox == [] then Effect(c, k, Stay)
    else if c.state.MapWaitAck? && (c.maps.None? || c.name.None? || c.port.None? || c.address.None?) then
      Effect(c, k, Abort)
    else
      var m, k' := k.inbox[0], Receive(k).(read := k.read + 1);
      if c.state.ChallengeSent? then OnChallengeSent(env, c, k', m, q)
      else if c.state.LoginFailed? then OnLoginFailed(env, c, k', m, q)
      else if c.state.MapList? then OnMapList(env, c, k', m, q)
      else OnMapWaitAck(c, k', m)
  }

  // --- The map offer ---

  function FirstNamed(maps: seq<Location>, name: string): Option<Location> {
    if maps == [] then None
    else if maps[0].name == name then Some(maps[0])
    else FirstNamed(maps[1..], name)
  }

  predicate Wanted(l: Location, allMaps: seq<Location>, served: set<string>) {
    var ours := FirstNamed(allMaps, l.name);
    ours.Some? && ours.value.hash == l.hash && l.name !in served
  }

  function Offer(advertised: seq<Location>, allMaps: seq<Location>, served: set<string>): seq<Location> {
    if advertised == [] then []
    else
      var n := |advertised| - 1;
      var rest, l := Offer(advertised[..n], allMaps, served), advertised[n];
      if Wanted(l, allMaps, served) then rest + [FirstNamed(allMaps, l.name).value] else rest
  }

  lemma {:induction false} FirstNamedAt(maps: seq<Location>, name: string, j: nat)
    requires j < |maps| && maps[j].name == name && forall i :: 0 <= i < j ==> maps[i].name != name
    ensures FirstNamed(maps, name) == Some(maps[j])
  {
    if j > 0 {
      FirstNamedAt(maps[1..], name, j - 1);
    }
  }

  lemma {:induction false} FirstNamedNone(maps: seq<Location>, name: string)
    ensures FirstNamed(maps, name).None? <==> forall i :: 0 <= i < |maps| ==> maps[i].name != name
    ensures var r := FirstNamed(maps, name); r.Some? ==> r.value in maps && r.value.name == name
  {
    if maps != [] {
      FirstNamedNone(maps[1..], name);
      assert maps == [maps[0]] + maps[1..];
      assert forall i :: 0 <= i < |maps[1..]| ==> maps[1..][i] == maps[i + 1];
      assert forall i :: 1 <= i < |maps| ==> maps[i] == maps[1..][i - 1];
    }
  }

  /** The nested loops of `processMapListSocket`. */
  method NegotiateMaps(advertised: seq<Location>, allMaps: seq<Location>, served: set<string>)
    returns (response: seq<Location>)
    ensures response == Offer(advertised, allMaps, served)
  {
    response := [];
    for i := 0 to |advertised|
      invariant response == Offer(advertised[..i], allMaps, served)
    {
      var theirs, before := advertised[i], response;
      assert advertised[..i + 1][..i] == advertised[..i];
      var j := 0;
      while j < |allMaps|
        invariant 0 <= j <= |allMaps| && response == before
        invariant forall k :: 0 <= k < j ==> allMaps[k].name != theirs.name
      {
        if theirs.name == allMaps[j].name {
          FirstNamedAt(allMaps, theirs.name, j);
          if theirs.hash == allMaps[j].hash && theirs.name !in served {
            response := response + [allMaps[j]];
          }
          break;
        }
        j := j + 1;
      }
      if j == |allMaps| {
        FirstNamedNone(allMaps, theirs.name);
      }
    }
    assert advertised[..|advertised|] == advertised;
  }

  /** A map as both ends recognise it: its name and its hash. */
  function Key(l: Location): (string, string) {
    (l.name, l.hash)
  }

  function Keys(s: seq<Location>): (r: seq<(string, string)>)
    ensures |r| == |s| && forall i :: 0 <= i < |s| ==> r[i] == Key(s[i])
  {
    seq(|s|, (i: int) requires 0 <= i < |s| => Key(s[i]))
  }

  function Names(s: seq<Location>): set<string> {
    set l | l in s :: l.name
  }

  /**
   * The offer, seen as names and hashes, is the advertised list with the unwanted entries left out:
   * same order, repetitions included.
   */
  lemma {:induction false} OfferIsFilter(advertised: seq<Location>, allMaps: seq<Location>, served: set<string>)
    ensures Keys(Offer(advertised, allMaps, served)) == Keys(Filter(l => Wanted(l, allMaps, served), advertised))
  {
    hide FirstNamed;
    if advertised != [] {
      var l := advertised[|advertised| - 1];
      OfferIsFilter(advertised[..|advertised| - 1], allMaps, served);
      FirstNamedNone(allMaps, l.name);
    }
  }

  /** Some catalogue entry is the first of that name and has that hash, and nobody serves the name yet. */
  ghost predicate Needed(l: Location, allMaps: seq<Location>, served: set<string>) {
    && l.name !in served
    && exists j :: 0 <= j < |allMaps| && allMaps[j].name == l.name && allMaps[j].hash == l.hash
                   && forall i :: 0 <= i < j ==> allMaps[i].name != l.name
  }

  lemma WantedIff(l: Location, allMaps: seq<Location>, served: set<string>)
    ensures Wanted(l, allMaps, served) <==> Needed(l, allMaps, served)
  {
    hide FirstNamed;
    FirstNamedNone(allMaps, l.name);
    if FirstNamed(allMaps, l.name).Some? {
      var j := FirstPlace(allMaps, l.name);
      FirstNamedAt(allMaps, l.name, j);
    }
  }

  lemma {:induction false} FirstPlace(maps: seq<Location>, name: string) returns (j: nat)
    requires exists i :: 0 <= i < |maps| && maps[i].name == name
    ensures j < |maps| && maps[j].name == name && forall i :: 0 <= i < j ==> maps[i].name != name
  {
    var i :| 0 <= i < |maps| && maps[i].name == name;
    if exists h :: 0 <= h < i && maps[h].name == name {
      var h :| 0 <= h < i && maps[h].name == name;
      assert maps[..i][h].name == name;
      j := FirstPlace(maps[..i], name);
      assert forall g :: 0 <= g < j ==> maps[..i][g] == maps[g];
    } else {
      j := i;
    }
  }

  lemma {:induction false} FilterSame<T(!new)>(p: T -> bool, r: T -> bool, s: seq<T>)
    requires forall x :: p(x) == r(x)
    ensures Filter(p, s) == Filter(r, s)
  {
    if s != [] {
      FilterSame(p, r, s[..|s| - 1]);
    }
  }

  /** The offer is exactly the needed part of the advertised list, by name and hash, in the peer's order. */
  lemma OfferIsNeeded(advertised: seq<Location>, allMaps: seq<Location>, served: set<string>)
    ensures Keys(Offer(advertised, allMaps, served)) == Keys(Filter(l => Needed(l, allMaps, served), advertised))
  {
    hide Wanted, Needed, Offer, Filter;
    OfferIsFilter(advertised, allMaps, served);
    forall l
      ensures Wanted(l, allMaps, served) == Needed(l, allMaps, served)
    {
      WantedIff(l, allMaps, served);
    }
    FilterSame(l => Wanted(l, allMaps, served), l => Needed(l, allMaps, served), advertised);
  }

  /** Each offered entry is the catalogue's own row, the first of that name, and not yet served. */
  lemma {:induction false} OfferRows(advertised: seq<Location>, allMaps: seq<Location>, served: set<string>)
    ensures forall l :: l in Offer(advertised, allMaps, served) ==>
              l.name !in served && FirstNamed(allMaps, l.name) == Some(l) && l in allMaps
  {
    hide FirstNamed;
    if advertised != [] {
      OfferRows(advertised[..|advertised| - 1], allMaps, served);
      FirstNamedNone(allMaps, advertised[|advertised| - 1].name);
    }
  }

  /** Each offered entry answers an advertised one of the same name and hash. */
  lemma OfferAnswers(advertised: seq<Location>, allMaps: seq<Location>, served: set<string>, l: Location)
    requires l in Offer(advertised, allMaps, served)
    ensures exists theirs :: theirs in advertised && Key(theirs) == Key(l)
  {
    var kept := Filter(l => Wanted(l, allMaps, served), advertised);
    var offer := Offer(advertised, allMaps, served);
    OfferIsFilter(advertised, allMaps, served);
    InFilter(l => Wanted(l, allMaps, served), advertised);
    var i :| 0 <= i < |offer| && offer[i] == l;
    assert Keys(offer)[i] == Keys(kept)[i] == Key(kept[i]);
    assert kept[i] in kept;
  }

  /** NOT_NEEDED is answered exactly when the server wants nothing on the list. */
  lemma OfferEmpty(advertised: seq<Location>, allMaps: seq<Location>, served: set<string>)
    ensures Offer(advertised, allMaps, served) == [] <==>
            forall l :: l in advertised ==> !Wanted(l, allMaps, served)
  {
    hide FirstNamed;
    var kept := Filter(l => Wanted(l, allMaps, served), advertised);
    OfferIsFilter(advertised, allMaps, served);
    InFilter(l => Wanted(l, allMaps, served), advertised);
    assert |kept| == |Keys(kept)| == |Offer(advertised, allMaps, served)|;
    if kept != [] {
      assert kept[0] in kept;
    }
  }

  // --- What every handler keeps ---

  /** The bookkeeping of one connection; it discharges the REQUIREs of `processMapWaitAckSocket`. */
  predicate Coherent(c: Connection) {
    && c.attempts <= MAX_ATTEMPTS
    && (c.state.LoginFailed? ==> 1 <= c.attempts <= 2)
    && (!c.state.LoginFailed? && !c.state.Done? ==> c.attempts == 0)
    && (c.state.MapList? || c.state.MapWaitAck? ==> c.name.Some? && c.address.Some? && c.port.Some?)
    && (c.state.MapWaitAck? ==> c.maps.Some? && c.maps.value != [])
    && (c.maps.Some? ==> c.state.MapWaitAck? || c.state.Done?)
  }

  /** Failed responses carry strictly decreasing counts of remaining attempts. */
  ghost predicate Decreasing(outbox: seq<Outbound>) {
    forall i, j :: 0 <= i < j < |outbox| && IsFailure(outbox[i]) && IsFailure(outbox[j]) ==>
      outbox[i].remaining > outbox[j].remaining
  }

  ghost predicate FailuresAtLeast(outbox: seq<Outbound>, n: int) {
    forall i :: 0 <= i < |outbox| && IsFailure(outbox[i]) ==> outbox[i].remaining >= n
  }

  /** No failed response so far told the peer that it has no attempts left. */
  ghost predicate Welcome(k: Sock) {
    FailuresAtLeast(k.outbox, 1)
  }

  /** How many more messages a connection can take. */
  function Rank(c: Connection): nat {
    match c.state
    case Fresh => 3
    case ChallengeSent => 3
    case LoginFailed => if c.attempts < 3 then 3 - c.attempts else 0
    case MapList => 2
    case MapWaitAck => 1
    case Done => 0
  }

  function RankAfter(e: Effect): nat {
    if e.next.Stay? then Rank(e.conn) else 0
  }

  ghost predicate Sound(c: Connection, k: Sock) {
    && Coherent(c)
    && Decreasing(k.outbox)
    && (!c.state.Done? ==> FailuresAtLeast(k.outbox, MAX_ATTEMPTS - c.attempts))
    && k.read + Rank(c) <= 3 + k.unanswered
  }

  predicate Takes(c: Connection, k: Sock) {
    !c.state.Done? && !c.state.Fresh? && k.inbox != []
  }

  lemma TransmitKeeps(k: Sock, m: Outbound, r: SendResult, n: int)
    requires Decreasing(k.outbox) && FailuresAtLeast(k.outbox, n)
    requires IsFailure(m) ==> m.remaining < n
    ensures var k' := Transmit(k, m, r);
            && Decreasing(k'.outbox) && FailuresAtLeast(k'.outbox, if IsFailure(m) then m.remaining else n)
            && k'.read == k.read && k'.unanswered == k.unanswered
  {
  }

  /** If the latest message is a failed response, it leaves no attempts exactly when the connection is done. */
  ghost predicate ZeroIffDone(before: seq<Outbound>, e: Effect) {
    var n := |before|;
    |e.sock.outbox| == n + 1 && IsFailure(e.sock.outbox[n]) ==>
      (e.sock.outbox[n].remaining == 0 <==> e.conn.state.Done?)
  }

  /** What a handler guarantees about its outcome. */
  ghost predicate Survives(before: seq<Outbound>, e: Effect) {
    && !e.next.Abort? && Coherent(e.conn) && Decreasing(e.sock.outbox)
    && e.sock.read + RankAfter(e) <= 3 + e.sock.unanswered
    && (e.next.Stay? ==> Sound(e.conn, e.sock))
    && (!e.next.Stay? ==> Welcome(e.sock))
    && (e.next.Enrol? ==> e.conn.state.MapWaitAck?)
    && ZeroIffDone(before, e)
  }

  /** What is known of a connection when a login message has just been taken from its socket. */
  ghost predicate AtLogin(c: Connection, k: Sock) {
    && (c.state.ChallengeSent? || c.state.LoginFailed?) && Coherent(c) && Decreasing(k.outbox)
    && FailuresAtLeast(k.outbox, MAX_ATTEMPTS - c.attempts) && k.read + 2 - c.attempts <= 3 + k.unanswered
  }

  lemma RefuseKeeps(c: Connection, k: Sock, r: SendResult)
    requires AtLogin(c, k)
    ensures Survives(k.outbox, Exhaust(Refuse(c, k, r)))
  {
    TransmitKeeps(k, AuthResponse(false, MAX_ATTEMPTS - (c.attempts + 1)), r, MAX_ATTEMPTS - c.attempts);
  }

  lemma LockOutKeeps(c: Connection, k: Sock, r: SendResult)
    requires AtLogin(c, k)
    ensures Survives(k.outbox, Exhaust(LockOut(c, k, r)))
  {
    TransmitKeeps(k, AuthResponse(false, 0), r, MAX_ATTEMPTS - c.attempts);
  }

  lemma AdmitKeeps(c: Connection, k: Sock, playerID: nat, username: string, r: SendResult)
    requires AtLogin(c, k)
    ensures Survives(k.outbox, Exhaust(Admit(c, k, playerID, username, r)))
  {
    TransmitKeeps(k, AuthResponse(true, MAX_ATTEMPTS - c.attempts), r, MAX_ATTEMPTS - c.attempts);
  }

  lemma LoginKeeps(env: Env, c: Connection, k: Sock, m: Inbound, q: Ask)
    requires m.Identity? && AtLogin(c, k)
    ensures Survives(k.outbox, Exhaust(LoginAttempt(env, c, k, m, q)))
  {
    hide FirstPlayer, Refuse, LockOut, Admit, Exhaust, Survives, AtLogin;
    RefuseKeeps(c, k, q.send);
    LockOutKeeps(c, k, q.send);
    match FirstPlayer(q.db.players, m.username)
    case None =>
    case Some(p) => AdmitKeeps(c, k, p.id, m.username, q.send);
  }

  lemma ChallengeSentKeeps(env: Env, c: Connection, k: Sock, m: Inbound, q: Ask)
    requires c.state.ChallengeSent? && AtLogin(c, k)
    ensures Survives(k.outbox, OnChallengeSent(env, c, k, m, q))
  {
    hide LoginAttempt, Refuse;
    if m.Identity? {
      LoginKeeps(env, c, k, m, q);
    } else if m.RegistrationRequest? {
      TransmitKeeps(k, RegistrationResponse, q.send, 3);
    } else {
      RefuseKeeps(c, k, q.send);
    }
  }

  lemma LoginFailedKeeps(env: Env, c: Connection, k: Sock, m: Inbound, q: Ask)
    requires c.state.LoginFailed? && AtLogin(c, k)
    ensures Survives(k.outbox, OnLoginFailed(env, c, k, m, q))
  {
    hide LoginAttempt, Refuse;
    if m.Identity? {
      LoginKeeps(env, c, k, m, q);
    } else {
      RefuseKeeps(c, k, q.send);
    }
  }

  lemma MapListKeeps(env: Env, c: Connection, k: Sock, m: Inbound, q: Ask)
    requires c.state.MapList? && Coherent(c) && Decreasing(k.outbox) && FailuresAtLeast(k.outbox, 3)
    requires k.read <= 2 + k.unanswered
    ensures Survives(k.outbox, OnMapList(env, c, k, m, q))
  {
    hide Offer;
    TransmitKeeps(k, NotNeeded, q.send, 3);
    if m.AdvertiseMaps? {
      TransmitKeeps(k, RequiredMaps(Offer(m.maps, env.allMaps, q.served)), q.send, 3);
    }
  }

  lemma AckKeeps(c: Connection, k: Sock, m: Inbound)
    requires c.state.MapWaitAck? && Coherent(c) && Decreasing(k.outbox) && FailuresAtLeast(k.outbox, 3)
    requires k.read <= 3 + k.unanswered
    ensures Survives(k.outbox, OnMapWaitAck(c, k, m))
  {
  }

  lemma NoMessageKeeps(env: Env, c: Connection, k: Sock, q: Ask)
    requires Sound(c, k) && !Takes(c, k)
    ensures Survives(k.outbox, Dispatch(env, c, k, q))
  {
    hide OnChallengeSent, OnLoginFailed, OnMapList, OnMapWaitAck;
    if c.state.Fresh? {
      TransmitKeeps(k, Challenge, q.send, 3);
    }
  }

  /** What the four handlers that take a message find. */
  lemma Taken(c: Connection, k: Sock)
    requires Sound(c, k) && Takes(c, k)
    ensures var k' := Receive(k).(read := k.read + 1);
            && k'.outbox == k.outbox && Coherent(c) && Decreasing(k'.outbox)
            && (c.state.ChallengeSent? || c.state.LoginFailed? ==> AtLogin(c, k'))
            && (c.state.MapList? || c.state.MapWaitAck? ==> FailuresAtLeast(k'.outbox, 3))
            && k'.read <= (if c.state.MapList? then 2 else 3) + k'.unanswered
  {
  }

  lemma DispatchTakes(env: Env, c: Connection, k: Sock, q: Ask)
    requires Coherent(c) && Takes(c, k)
    ensures var m, k' := k.inbox[0], Receive(k).(read := k.read + 1);
            Dispatch(env, c, k, q) ==
              if c.state.ChallengeSent? then OnChallengeSent(env, c, k', m, q)
              else if c.state.LoginFailed? then OnLoginFailed(env, c, k', m, q)
              else if c.state.MapList? then OnMapList(env, c, k', m, q)
              else OnMapWaitAck(c, k', m)
  {
    hide OnChallengeSent, OnLoginFailed, OnMapList, OnMapWaitAck;
  }

  /**
   * A handler keeps its connection sound, never fails a REQUIRE, lets a socket leave only while welcome, and
   * reports zero remaining attempts exactly when it ends the connection.
   */
  lemma DispatchKeepsSound(env: Env, c: Connection, k: Sock, q: Ask)
    requires Sound(c, k)
    ensures Survives(k.outbox, Dispatch(env, c, k, q))
  {
    if !Takes(c, k) {
      NoMessageKeeps(env, c, k, q);
    } else {
      Taken(c, k);
      DispatchTakes(env, c, k, q);
      hide Dispatch, OnChallengeSent, OnLoginFailed, OnMapList, OnMapWaitAck, Survives, Sound, Coherent, AtLogin,
           Decreasing, FailuresAtLeast;
      var m, k' := k.inbox[0], Receive(k).(read := k.read + 1);
      match c.state
      case ChallengeSent => ChallengeSentKeeps(env, c, k', m, q);
      case LoginFailed => LoginFailedKeeps(env, c, k', m, q);
      case MapList => MapListKeeps(env, c, k', m, q);
      case MapWaitAck => AckKeeps(c, k', m);
    }
  }

  /**
   * Each message taken brings the connection closer to DONE, except a registration request whose
   * response could not be sent: it leaves the connection where it was.
   */
  lemma MessageLowersRank(env: Env, c: Connection, k: Sock, q: Ask)
    requires Coherent(c) && Takes(c, k)
    ensures var e := Dispatch(env, c, k, q);
            && (RankAfter(e) < Rank(c) <==>
                !(c.state.ChallengeSent? && k.inbox[0].RegistrationRequest? && !q.send.Sent?))
            && RankAfter(e) <= Rank(c)
            && e.sock.inbox == k.inbox[1..]
  {
    hide Offer, FirstPlayer;
  }

  // --- Who gets in ---

  /** Place `i` holds the first row with that username. */
  predicate IsFirst(rows: seq<Player>, i: int, username: string) {
    0 <= i < |rows| && rows[i].username == username && forall j :: 0 <= j < i ==> rows[j].username != username
  }

  lemma {:induction false} FirstPlayerIs(rows: seq<Player>, username: string)
    ensures var r := FirstPlayer(rows, username);
            && (r.Some? <==> exists i :: IsFirst(rows, i, username))
            && (forall i :: IsFirst(rows, i, username) ==> r == Some(rows[i]))
  {
    if rows != [] {
      var rest := rows[1..];
      FirstPlayerIs(rest, username);
      if rows[0].username == username {
        assert IsFirst(rows, 0, username);
      } else {
        forall i | IsFirst(rest, i, username)
          ensures IsFirst(rows, i + 1, username) && rest[i] == rows[i + 1]
        {
          assert forall j :: 0 < j <= i ==> rows[j] == rest[j - 1];
        }
        forall i | IsFirst(rows, i, username)
          ensures IsFirst(rest, i - 1, username) && rest[i - 1] == rows[i]
        {
          assert forall j :: 0 <= j < i - 1 ==> rest[j] == rows[j + 1];
        }
      }
    }
  }

  /** The message waiting on the socket proves that its sender is the player whose row is at place `i`. */
  predicate Proves(env: Env, k: Sock, players: seq<Player>, i: int) {
    && k.inbox != [] && k.inbox[0].Identity? && IsFirst(players, i, k.inbox[0].username)
    && !players[i].locked && env.accepts(players[i].stored, k.inbox[0].encrypted)
  }

  /**
   * A session opens exactly when a connection in a login state receives an identity that the first row of
   * that username accepts, and the account is not locked; the session is that player's, under that username.
   */
  lemma SessionOpensIff(env: Env, c: Connection, k: Sock, q: Ask)
    ensures var e := Dispatch(env, c, k, q);
            && (e.next.OpenSession? <==>
                (c.state.ChallengeSent? || c.state.LoginFailed?) && exists i :: Proves(env, k, q.db.players, i))
            && (forall i :: e.next.OpenSession? && Proves(env, k, q.db.players, i) ==>
                  e.next.playerID == q.db.players[i].id && e.next.username == q.db.players[i].username)
  {
    hide FirstPlayer, Offer, IsFirst;
    if k.inbox != [] && k.inbox[0].Identity? {
      FirstPlayerIs(q.db.players, k.inbox[0].username);
      FirstNamesMatch(q.db.players, k.inbox[0].username);
      if FirstPlayer(q.db.players, k.inbox[0].username).Some? {
        var i :| IsFirst(q.db.players, i, k.inbox[0].username);
        var p := q.db.players[i];
        assert Proves(env, k, q.db.players, i) <==> !p.locked && env.accepts(p.stored, k.inbox[0].encrypted);
      }
    }
  }

  lemma FirstNamesMatch(rows: seq<Player>, username: string)
    ensures forall i :: IsFirst(rows, i, username) ==> 0 <= i < |rows| && rows[i].username == username
  {
  }

  predicate Locked(players: seq<Player>, i: int, username: string) {
    IsFirst(players, i, username) && players[i].locked
  }

  /**
   * A login attempt ends the connection without a session exactly when the account is locked, or when it is
   * the third failure.
   */
  lemma LoginEndsIff(env: Env, c: Connection, k: Sock, q: Ask)
    requires Coherent(c) && (c.state.ChallengeSent? || c.state.LoginFailed?) && k.inbox != [] && k.inbox[0].Identity?
    ensures var e, players, u := Dispatch(env, c, k, q), q.db.players, k.inbox[0].username;
            e.next.Stay? && e.conn.state.Done? <==>
            (exists i :: Locked(players, i, u)) || (c.attempts == 2 && !exists i :: Proves(env, k, players, i))
  {
    hide FirstPlayer, Offer, IsFirst;
    var players, u := q.db.players, k.inbox[0].username;
    FirstPlayerIs(players, u);
    FirstNamesMatch(players, u);
    if FirstPlayer(players, u).Some? {
      var i :| IsFirst(players, i, u);
      var p := players[i];
      assert Locked(players, i, u) <==> p.locked;
      assert Proves(env, k, players, i) <==> !p.locked && env.accepts(p.stored, k.inbox[0].encrypted);
    }
  }

  /** Map servers get one attempt: after any failure a connection can only fail again, log in as a player, or end. */
  lemma OneShot(env: Env, c: Connection, k: Sock, q: Ask)
    requires c.state.LoginFailed? || (c.state.ChallengeSent? && k.inbox != [] && !k.inbox[0].RegistrationRequest?)
    ensures var e := Dispatch(env, c, k, q);
            e.next.OpenSession? || (e.next.Stay? && (e.conn.state.LoginFailed? || e.conn.state.Done?) && e.conn.maps == c.maps)
  {
    hide FirstPlayer, OnMapList;
  }

  // --- Live sessions ---

  /** Where the map of a character is served, as the two indexes tell it. */
  datatype Route = UnknownMap | Unserved | Dangling | To(friendlyName: string, host: string, port: nat)

  datatype Attended = Attended(session: Session, sock: Sock) | ReadDangling

  predicate Owns(ch: Character, playerID: nat) {
    ch.playerID == playerID
  }

  function ChooseCharacter(s: Session, k: Sock, id: nat, q: Ask, route: nat -> Route): Attended {
    var rows := Filter((ch: Character) => Owns(ch, s.playerID) && ch.id == id, q.db.characters);
    if |rows| != 1 then Attended(s, k.(connected := false))
    else
      match route(rows[0].locationID)
      case UnknownMap => Attended(s, Transmit(k, NoMapServer, q.send))
      case Unserved => Attended(s, Transmit(k, NoMapServer, q.send))
      case Dangling => ReadDangling
      case To(name, host, port) =>
        Attended(if IsZero(q.send) then s else s.(characterID := id), Transmit(k, Instructions(name, host, port), q.send))
  }

  function ListCharacters(s: Session, k: Sock, q: Ask): Attended {
    var k' := Transmit(k, PlayerCharacters(Filter((ch: Character) => Owns(ch, s.playerID), q.db.characters)), q.send);
    Attended(s, if IsZero(q.send) then k'.(connected := false, error := true) else k')
  }

  /** One visit to a session whose socket has no error. */
  function Attend(s: Session, k: Sock, q: Ask, route: nat -> Route): Attended {
    if k.inbox == [] then Attended(s, k)
    else
      var m, k' := k.inbox[0], Receive(k);
      if m.Empty? || m.OpcodeTruncated? then Attended(s, k'.(error := true))
      else if m.RequestCharacters? then ListCharacters(s, k', q)
      else if m.SelectCharacter? then ChooseCharacter(s, k', m.id, q, route)
      else if m.SelectTruncated? then Attended(s, Transmit(k', MalformedPacket, q.send))
      else Attended(s, k')
  }

  /** The one character with that id that the session's player owns, if there is exactly one. */
  predicate Picks(s: Session, rows: seq<Character>, id: nat, ch: Character) {
    Filter((r: Character) => Owns(r, s.playerID) && r.id == id, rows) == [ch]
  }

  /** Character ids are the table's primary key. */
  ghost predicate UniqueIds(rows: seq<Character>) {
    forall i, j :: 0 <= i < j < |rows| ==> rows[i].id != rows[j].id
  }

  lemma OnePlace(at: seq<nat>, i: nat)
    requires i in at && (forall k :: 0 <= k < |at| ==> at[k] == i)
    requires forall k, l :: 0 <= k < l < |at| ==> at[k] < at[l]
    ensures |at| == 1
  {
    assert at[0] == at[|at| - 1];
  }

  /** With unique ids, an owned row is the only one with its id. */
  lemma OnlyRow(rows: seq<Character>, playerID: nat, ch: Character)
    requires UniqueIds(rows) && ch in rows && ch.playerID == playerID
    ensures |Filter((r: Character) => Owns(r, playerID) && r.id == ch.id, rows)| == 1
  {
    var p := (r: Character) => Owns(r, playerID) && r.id == ch.id;
    FilterIsStable(p, rows);
    hide Filter, Kept;
    var at := Kept(p, rows);
    var i :| 0 <= i < |rows| && rows[i] == ch;
    forall k | 0 <= k < |at|
      ensures at[k] == i
    {
      assert at[k] in at;
      assert p(rows[at[k]]) && rows[at[k]].id == rows[i].id;
    }
    OnePlace(at, i);
  }

  /** A selection that finds its one row and a server for its location. */
  predicate Finds(s: Session, k: Sock, rows: seq<Character>, route: nat -> Route, ch: Character) {
    k.inbox != [] && k.inbox[0].SelectCharacter? && Picks(s, rows, k.inbox[0].id, ch) && route(ch.locationID).To?
  }

  /**
   * A session changes exactly when a selection finds its server and the send does not return zero; it then
   * records the id selected, and the instructions were delivered exactly when the result was positive.
   */
  lemma SelectionIsRecorded(s: Session, k: Sock, q: Ask, route: nat -> Route)
    requires Attend(s, k, q, route).Attended?
    ensures var a := Attend(s, k, q, route);
            && a.session == (if !IsZero(q.send) && exists ch :: Finds(s, k, q.db.characters, route, ch)
                             then s.(characterID := k.inbox[0].id) else s)
            && forall ch :: Finds(s, k, q.db.characters, route, ch) ==>
                 var r := route(ch.locationID);
                 (a.sock.outbox == k.outbox + [Instructions(r.friendlyName, r.host, r.port)] <==> q.send.Sent?)
  {
    hide Filter;
    if k.inbox != [] && k.inbox[0].SelectCharacter? {
      var rows := Filter((r: Character) => Owns(r, s.playerID) && r.id == k.inbox[0].id, q.db.characters);
      if |rows| == 1 {
        assert rows == [rows[0]];
        assert Picks(s, q.db.characters, k.inbox[0].id, rows[0]);
        assert Finds(s, k, q.db.characters, route, rows[0]) <==> route(rows[0].locationID).To?;
      }
    }
  }

  /** A negative send result is taken for success: the character is recorded though the player was told nothing. */
  lemma RecordedUntold(s: Session, ch: Character, route: nat -> Route)
    requires ch.playerID == s.playerID && route(ch.locationID).To?
    ensures var k := NEW_SOCK.(inbox := [SelectCharacter(ch.id)]);
            var a := Attend(s, k, Ask(Negative, Db([], [ch]), {}), route);
            a.Attended? && a.session.characterID == ch.id && a.sock.outbox == []
  {
    var own := (r: Character) => Owns(r, s.playerID) && r.id == ch.id;
    assert [ch][..0] == [] && Filter(own, [ch]) == [ch];
  }

  /** How a selection is answered, when the send succeeds: each reply with the one situation that calls for it. */
  lemma SelectionAnswers(s: Session, k: Sock, q: Ask, route: nat -> Route)
    requires k.inbox != [] && k.inbox[0].SelectCharacter? && q.send.Sent? && Attend(s, k, q, route).Attended?
    ensures var a, rows, id := Attend(s, k, q, route), q.db.characters, k.inbox[0].id;
            && ((exists ch :: Picks(s, rows, id, ch)) || (!a.sock.connected && a.sock.outbox == k.outbox && a.session == s))
            && forall ch :: Picks(s, rows, id, ch) ==>
                 a.sock.outbox == k.outbox + [match route(ch.locationID)
                                              case To(name, host, port) => Instructions(name, host, port)
                                              case _ => NoMapServer]
                 && a.sock.connected == k.connected
  {
    hide Filter;
    var rows := Filter((r: Character) => Owns(r, s.playerID) && r.id == k.inbox[0].id, q.db.characters);
    if |rows| == 1 {
      assert rows == [rows[0]];
      assert Picks(s, q.db.characters, k.inbox[0].id, rows[0]);
    }
  }

  /** A delivered answer to the selection of an owned character, and what the session then records. */
  lemma AttendOwes(s: Session, k: Sock, q: Ask, route: nat -> Route, ch: Character)
    requires k.inbox != [] && k.inbox[0] == SelectCharacter(ch.id) && q.send.Sent?
    requires UniqueIds(q.db.characters) && ch in q.db.characters && ch.playerID == s.playerID
    ensures var r := route(ch.locationID);
            var m := if r.To? then Instructions(r.friendlyName, r.host, r.port) else NoMapServer;
            var s', k' := if r.To? then s.(characterID := ch.id) else s, k.(inbox := k.inbox[1..], outbox := k.outbox + [m]);
            r != Dangling ==> Attend(s, k, q, route) == Attended(s', k')
  {
    OnlyRow(q.db.characters, s.playerID, ch);
    InFilter((r: Character) => Owns(r, s.playerID) && r.id == ch.id, q.db.characters);
    hide Filter, UniqueIds;
    var own := Filter((r: Character) => Owns(r, s.playerID) && r.id == ch.id, q.db.characters);
    assert own[0] in own;
    SameRow(q.db.characters, own[0], ch);
  }

  lemma SameRow(rows: seq<Character>, x: Character, y: Character)
    requires UniqueIds(rows) && x in rows && y in rows && x.id == y.id
    ensures x == y
  {
  }

  lemma OtherMessageKeeps(k: Sock, m: Outbound, r: SendResult)
    requires !IsFailure(m)
    ensures Decreasing(k.outbox) ==> Decreasing(Transmit(k, m, r).outbox)
    ensures Welcome(k) ==> Welcome(Transmit(k, m, r))
    ensures var k' := Transmit(k, m, r); k'.read == k.read && k'.unanswered == k.unanswered
  {
  }

  /** A session visit never sends a login response and never changes who the session belongs to. */
  lemma AttendKeeps(s: Session, k: Sock, q: Ask, route: nat -> Route)
    ensures var a := Attend(s, k, q, route);
            a.Attended? ==>
              && a.session == s.(characterID := a.session.characterID)
              && a.sock.read == k.read && a.sock.unanswered == k.unanswered
              && (Decreasing(k.outbox) ==> Decreasing(a.sock.outbox))
              && (Welcome(k) ==> Welcome(a.sock))
  {
    hide Filter, Transmit, Decreasing;
    if k.inbox != [] {
      forall m: Outbound | !IsFailure(m)
        ensures Decreasing(k.outbox) ==> Decreasing(Transmit(Receive(k), m, q.send).outbox)
        ensures Welcome(k) ==> Welcome(Transmit(Receive(k), m, q.send))
        ensures var k' := Transmit(Receive(k), m, q.send); k'.read == k.read && k'.unanswered == k.unanswered
      {
        OtherMessageKeeps(Receive(k), m, q.send);
      }
    }
  }
}
