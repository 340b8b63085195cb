/** The game client as an object, frame by frame, and its frames as steps of joint runs. */
module GameClient {
  import opened Prelude
  import opened HexCodec
  import opened Domain
  import opened Handlers
  import opened ClientLogin

  datatype GameState = LOGIN | CHARACTER_SELECT | MAP_SERVER_CONNECT | PLAYING

  /**
   * What one frame finds: the keys just pressed, whether a connection attempt succeeds, the messages that its
   * one or two waits bring (`None`: nothing was received), and the outcome of the version check.
   */
  datatype Frame = Frame(keys: set<MenuKey>, dials: bool, first: Option<Outbound>, second: Option<Outbound>,
                         sameVersion: bool, encrypted: seq<byte>)

  /** Nothing came: the login attempt fails, or the client stays in its game state. */
  function Missed(cl: Client): Client {
    if cl.phase.AwaitChallenge? || cl.phase.AwaitAuth? then cl.(phase := AtLogin)
    else if cl.phase.AwaitList? then cl.(phase := AtSelect)
    else cl
  }

  /** One wait. */
  function Waited(cl: Client, m: Option<Outbound>, f: Frame): Reaction {
    if m.None? then Reaction(Missed(cl), []) else React(cl, m.value, f.sameVersion, f.encrypted)
  }

  /** One wait, after what has already been said. */
  function ThenWaited(r: Reaction, m: Option<Outbound>, f: Frame): Reaction {
    var next := Waited(r.client, m, f);
    Reaction(next.client, r.said + next.said)
  }

  /** `doLogin` on a client with a socket and a key, and on one without a socket. */
  function LoggedIn(cl: Client, f: Frame): Reaction {
    if cl.phase.AtLogin? then ThenWaited(Pressed(cl, SpaceKey, f.encrypted), f.first, f)
    else if !f.dials then Reaction(cl, [])
    else
      var r := Waited(Calling(cl), f.first, f);
      if r.client.phase.AwaitAuth? then ThenWaited(r, f.second, f) else r
  }

  /** `encryptStringPublic` is called through a null pointer: connected, but no challenge ever arrived. */
  predicate NullKey(cl: Client, keys: set<MenuKey>) {
    cl.phase.AtLogin? && !cl.hasKey && SpaceKey in keys
  }

  /**
   * The first login of a client leads to that fault at the next press of the space bar exactly when its
   * connection succeeded and then brought no challenge.
   */
  lemma NullKeyIff(cl: Client, f: Frame, next: set<MenuKey>)
    requires cl.phase.HungUp? && !cl.hasKey && SpaceKey in f.keys && SpaceKey in next
    ensures NullKey(Rendered(cl, f).client, next) <==> f.dials && (f.first.None? || !f.first.value.Challenge?)
  {
  }

  /** One frame, as the protocol's own steps. */
  function Rendered(cl: Client, f: Frame): Reaction {
    if cl.phase.AtLogin? || cl.phase.HungUp? then
      if SpaceKey in f.keys then LoggedIn(cl, f)
      else if OneKey in f.keys then Pressed(cl, OneKey, f.encrypted)
      else Reaction(cl, [])
    else if cl.phase.AtSelect? && ReturnKey in f.keys then ThenWaited(Pressed(cl, ReturnKey, f.encrypted), f.first, f)
    else if cl.phase.AwaitRoute? then Waited(cl, f.first, f)
    else Reaction(cl, [])
  }

  /** This frame connects a new socket. */
  predicate Dials(cl: Client, f: Frame) {
    cl.phase.HungUp? && SpaceKey in f.keys && f.dials
  }

  predicate IsWelcome(m: Option<Outbound>) {
    m.Some? && m.value.AuthResponse? && m.value.successful
  }

  /** A refusal that leaves no attempts. */
  predicate IsFarewell(m: Option<Outbound>) {
    m.Some? && m.value.AuthResponse? && !m.value.successful && m.value.remaining == 0
  }

  predicate IsChallenge(m: Option<Outbound>) {
    m.Some? && m.value.Challenge?
  }

  /** The list that arrived has a character on it. */
  predicate HasCharacter(m: Option<Outbound>) {
    m.Some? && m.value.PlayerCharacters? && m.value.rows != []
  }

  class Game {
    var gameState: GameState
    var connected: bool
    var hasKey: bool
    var username: string
    var currentCharacter: Option<Character>
    ghost var seen: nat            // messages read from the present socket
    ghost var said: seq<Inbound>   // messages put on the present socket

    /** The client between two frames. */
    ghost function Now(): Client
      reads this
    {
      var phase := match gameState
        case LOGIN => if connected then AtLogin else HungUp
        case CHARACTER_SELECT => AtSelect
        case MAP_SERVER_CONNECT => AwaitRoute
        case PLAYING => Playing;
      Client(phase, username, currentCharacter, seen, hasKey)
    }

    constructor (username: string)
      ensures Now() == Client(HungUp, username, None, 0, false) && said == []
    {
      gameState, connected, hasKey, this.username, currentCharacter := LOGIN, false, false, username, None;
      seen, said := 0, [];
    }

    method Put(m: Inbound)
      modifies this`said
      ensures said == old(said) + [m]
    {
      said := said + [m];
    }

    method DoLogin(f: Frame) returns (ok: bool)
      requires gameState.LOGIN? && (connected ==> hasKey)
      modifies this`connected, this`hasKey, this`seen, this`said
      ensures old(connected) ==>
                && ok == IsWelcome(f.first) && connected == !IsFarewell(f.first) && hasKey == old(hasKey)
                && said == old(said) + [Identity(username, f.encrypted)]
      ensures !old(connected) && !f.dials ==> !ok && !connected && hasKey == old(hasKey) && said == old(said)
      ensures !old(connected) && f.dials && !IsChallenge(f.first) ==>
                !ok && connected && hasKey == old(hasKey) && said == []
      ensures !old(connected) && f.dials && IsChallenge(f.first) && !f.sameVersion ==>
                !ok && connected && hasKey && said == [VersionMismatch]
      ensures !old(connected) && f.dials && IsChallenge(f.first) && f.sameVersion ==>
                && ok == IsWelcome(f.second) && connected == !IsFarewell(f.second) && hasKey
                && said == [Identity(username, f.encrypted)]
      ensures var r := LoggedIn(old(Now()), f);
              && Now() == (if ok then r.client.(phase := AtLogin) else r.client) && (ok <==> r.client.phase.AtSelect?)
              && said == (if !old(connected) && f.dials then [] else old(said)) + r.said
    {
      var response := f.first;
      if !connected {
        if !f.dials {
          return false;
        }
        connected, seen, said := true, 0, [];
        if f.first.None? {
          return false;
        }
        seen := 1;
        if !f.first.value.Challenge? {
          return false;
        }
        hasKey := true;
        if !f.sameVersion {
          Put(VersionMismatch);
          return false;
        }
        response := f.second;
      }
      Put(Identity(username, f.encrypted));
      if response.None? {
        return false;
      }
      seen := seen + 1;
      if !response.value.AuthResponse? {
        return false;
      }
      if !response.value.successful {
        if response.value.remaining == 0 {
          connected := false;
        }
        return false;
      }
      return true;
    }

    /** The part of a frame spent in CHARACTER_SELECT. */
    method SelectFirst(f: Frame)
      requires gameState.CHARACTER_SELECT?
      modifies this
      ensures HasCharacter(f.first) ==>
                && gameState.MAP_SERVER_CONNECT? && currentCharacter == Some(f.first.value.rows[0].(locationID := 0))
                && said == old(said) + [RequestCharacters, SelectCharacter(f.first.value.rows[0].id)]
      ensures !HasCharacter(f.first) ==>
                && gameState.CHARACTER_SELECT? && currentCharacter == old(currentCharacter)
                && said == old(said) + [RequestCharacters]
      ensures username == old(username) && hasKey == old(hasKey)
      ensures var r := ThenWaited(Pressed(old(Now()), ReturnKey, f.encrypted), f.first, f);
              Now() == r.client && said == old(said) + r.said && connected == old(connected)
    {
      Put(RequestCharacters);
      if f.first.None? {
        return;
      }
      seen := seen + 1;
      if f.first.value.PlayerCharacters? && f.first.value.rows != [] {
        currentCharacter := Some(Listed(f.first.value.rows[0]));
        Put(SelectCharacter(f.first.value.rows[0].id));
        gameState := MAP_SERVER_CONNECT;
      }
    }

    /**
     * `render`: one frame of the game state machine. It faults exactly when it would use a key it never got. The
     * clauses on the game states say what the frame does; the last two, that this is what the protocol's steps do.
     */
    method Render(f: Frame) returns (fault: bool)
      modifies this
      ensures fault <==> old(gameState).LOGIN? && old(connected) && !old(hasKey) && SpaceKey in f.keys
      ensures !fault ==> FrameEffect(old(gameState), old(connected), old(username), old(currentCharacter), old(said), f)
      ensures fault <==> NullKey(old(Now()), f.keys)
      ensures fault ==> Now() == old(Now()) && said == old(said)
      ensures var cl, r := old(Now()), Rendered(old(Now()), f);
              !fault ==> Now() == r.client && said == (if Dials(cl, f) then [] else old(said)) + r.said
    {
      hide LoggedIn, Waited, ThenWaited, Pressed;
      fault := false;
      match gameState {
        case LOGIN =>
          if SpaceKey in f.keys {
            if connected && !hasKey {
              return true;
            }
            var ok := DoLogin(f);
            if ok {
              gameState := CHARACTER_SELECT;
            }
          } else if OneKey in f.keys {
            PressOne(f.encrypted);
          }
        case CHARACTER_SELECT =>
          if ReturnKey in f.keys {
            SelectFirst(f);
          }
        case MAP_SERVER_CONNECT => AwaitInstructions(f);
        case PLAYING =>
      }
    }

    /** What a frame does, game state by game state. */
    ghost predicate FrameEffect(
      was: GameState, wasConnected: bool, name: string, current: Option<Character>, put: seq<Inbound>, f: Frame)
      reads this
    {
      match was
      case LOGIN =>
        && currentCharacter == current && (gameState.LOGIN? || gameState.CHARACTER_SELECT?)
        && (if SpaceKey !in f.keys then
              && gameState.LOGIN? && connected == wasConnected && said == put
              && username == if OneKey in f.keys then "SgtCoDFish@example.com" else name
            else
              && username == name
              && (gameState.CHARACTER_SELECT? <==>
                    if wasConnected then IsWelcome(f.first)
                    else f.dials && IsChallenge(f.first) && f.sameVersion && IsWelcome(f.second))
              && (connected <==>
                    if wasConnected then !IsFarewell(f.first)
                    else f.dials && !(IsChallenge(f.first) && f.sameVersion && IsFarewell(f.second)))
              && said == if wasConnected then put + [Identity(name, f.encrypted)]
                         else if !f.dials then put
                         else if !IsChallenge(f.first) then []
                         else if !f.sameVersion then [VersionMismatch]
                         else [Identity(name, f.encrypted)])
      case CHARACTER_SELECT =>
        && username == name
        && (if ReturnKey !in f.keys then gameState == was && currentCharacter == current && said == put
            else if HasCharacter(f.first) then
              && gameState.MAP_SERVER_CONNECT? && currentCharacter == Some(f.first.value.rows[0].(locationID := 0))
              && said == put + [RequestCharacters, SelectCharacter(f.first.value.rows[0].id)]
            else gameState == was && currentCharacter == current && said == put + [RequestCharacters])
      case MAP_SERVER_CONNECT =>
        && username == name && currentCharacter == current && said == put
        && gameState == if f.first.None? then MAP_SERVER_CONNECT
                        else if f.first.value.Instructions? then PLAYING else CHARACTER_SELECT
      case PLAYING => gameState.PLAYING? && username == name && currentCharacter == current && said == put
    }

    method PressOne(encrypted: seq<byte>)
      requires gameState.LOGIN?
      modifies this`username
      ensures username == "SgtCoDFish@example.com"
      ensures Now() == Pressed(old(Now()), OneKey, encrypted).client && Pressed(old(Now()), OneKey, encrypted).said == []
    {
      username := SUPER_USER;
    }

    /** The part of a frame spent in MAP_SERVER_CONNECT. */
    method AwaitInstructions(f: Frame)
      requires gameState.MAP_SERVER_CONNECT?
      modifies this`seen, this`gameState
      ensures gameState == if f.first.None? then MAP_SERVER_CONNECT
                           else if f.first.value.Instructions? then PLAYING else CHARACTER_SELECT
      ensures var r := Waited(old(Now()), f.first, f); Now() == r.client && r.said == []
    {
      if f.first.Some? {
        seen := seen + 1;
        gameState := if f.first.value.Instructions? then PLAYING else CHARACTER_SELECT;
      }
    }
  }

  // --- The client object in joint runs ---

  /** The server's visits while the client waits. */
  function Visits(env: Env, rows: seq<Character>, d: Duo, vs: seq<Event>): Result {
    if vs == [] then Next(d)
    else
      var before := Visits(env, rows, d, vs[..|vs| - 1]);
      if before.Off? || !vs[|vs| - 1].ServerVisit? then Off else Step(env, rows, before.d, vs[|vs| - 1])
  }

  /** These visits leave `m` as the next message for the client to read. */
  predicate Delivers(env: Env, rows: seq<Character>, d: Duo, vs: seq<Event>, m: Option<Outbound>) {
    var r := Visits(env, rows, d, vs);
    r.Next? && r.d.client.seen < |r.d.k.outbox| && m == Some(r.d.k.outbox[r.d.client.seen])
  }

  /** The joint state after a wait. */
  function AfterWait(env: Env, rows: seq<Character>, d: Duo, vs: seq<Event>, m: Option<Outbound>, f: Frame): Duo
    requires Delivers(env, rows, d, vs, m)
  {
    ClientReadStep(Visits(env, rows, d, vs).d, ClientReads(f.sameVersion, f.encrypted))
  }

  lemma {:induction false} VisitsReach(env: Env, rows: seq<Character>, id: SockId, d: Duo, vs: seq<Event>)
    requires ReachableDuo(env, rows, id, d) && Visits(env, rows, d, vs).Next?
    ensures var d' := Visits(env, rows, d, vs).d;
            ReachableDuo(env, rows, id, d') && d'.client == d.client && d'.said == d.said
  {
    if vs != [] {
      hide ReachableDuo, Dispatch, Attend;
      var n := |vs| - 1;
      VisitsReach(env, rows, id, d, vs[..n]);
      Extend(env, rows, id, Visits(env, rows, d, vs[..n]).d, vs[n], Visits(env, rows, d, vs).d);
    }
  }

  /** A wait that brings a message is server visits and a read: steps of a joint run. */
  lemma WaitReaches(
    env: Env, rows: seq<Character>, id: SockId, d: Duo, vs: seq<Event>, m: Option<Outbound>, f: Frame)
    requires ReachableDuo(env, rows, id, d) && Delivers(env, rows, d, vs, m)
    ensures var d', r := AfterWait(env, rows, d, vs, m, f), Waited(d.client, m, f);
            ReachableDuo(env, rows, id, d') && d'.client == r.client && d'.said == d.said + r.said
  {
    hide ReachableDuo, ServerStep, React;
    VisitsReach(env, rows, id, d, vs);
    Extend(env, rows, id, Visits(env, rows, d, vs).d, ClientReads(f.sameVersion, f.encrypted), AfterWait(env, rows, d, vs, m, f));
  }

  lemma PressReaches(env: Env, rows: seq<Character>, id: SockId, d: Duo, key: MenuKey, encrypted: seq<byte>)
    requires ReachableDuo(env, rows, id, d) && Heeds(d.client, key)
    ensures ReachableDuo(env, rows, id, Apply(d, Pressed(d.client, key, encrypted)))
  {
    hide ReachableDuo, Pressed;
    Extend(env, rows, id, d, Press(key, encrypted), Apply(d, Pressed(d.client, key, encrypted)));
  }

  /** The key that a frame on a connected client acts on, if any. */
  function KeyOf(cl: Client, f: Frame): Option<MenuKey> {
    if cl.phase.AtLogin? && SpaceKey in f.keys then Some(SpaceKey)
    else if cl.phase.AtLogin? && OneKey in f.keys then Some(OneKey)
    else if cl.phase.AtSelect? && ReturnKey in f.keys then Some(ReturnKey)
    else None
  }

  /** The joint state once that key has been acted on. */
  function AfterKey(d: Duo, f: Frame): Duo {
    var key := KeyOf(d.client, f);
    if key.None? then d else Apply(d, Pressed(d.client, key.value, f.encrypted))
  }

  predicate Waits(cl: Client, f: Frame) {
    cl.phase.AwaitRoute? || (KeyOf(cl, f).Some? && !KeyOf(cl, f).value.OneKey?)
  }

  /**
   * A frame of a connected client in a joint run: the key it acts on, the server's visits `vs` while it waits,
   * and the message they deliver are steps of a joint run, which leads to the client that `Render` computes.
   */
  lemma FrameIsRun(env: Env, rows: seq<Character>, id: SockId, d: Duo, f: Frame, vs: seq<Event>) returns (d': Duo)
    requires ReachableDuo(env, rows, id, d) && !NullKey(d.client, f.keys)
    requires d.client.phase.AtLogin? || d.client.phase.AtSelect? || d.client.phase.AwaitRoute? || d.client.phase.Playing?
    requires Waits(d.client, f) ==> Delivers(env, rows, AfterKey(d, f), vs, f.first)
    ensures ReachableDuo(env, rows, id, d')
    ensures d'.client == Rendered(d.client, f).client && d'.said == d.said + Rendered(d.client, f).said
  {
    hide ReachableDuo, React, Delivers;
    var key := KeyOf(d.client, f);
    var d1 := AfterKey(d, f);
    if key.Some? {
      PressReaches(env, rows, id, d, key.value, f.encrypted);
    }
    if Waits(d.client, f) {
      WaitReaches(env, rows, id, d1, vs, f.first, f);
      d' := AfterWait(env, rows, d1, vs, f.first, f);
    } else {
      d' := d1;
    }
  }

  /** The first frame of a login on a new socket, likewise: `second` is waited for when the challenge is answered. */
  lemma DialIsRun(
    env: Env, rows: seq<Character>, id: SockId, cl: Client, f: Frame, vs: seq<Event>, ws: seq<Event>) returns (d': Duo)
    requires Dials(cl, f) && Delivers(env, rows, Dialled(cl, id), vs, f.first)
    requires var d1 := AfterWait(env, rows, Dialled(cl, id), vs, f.first, f);
             d1.client.phase.AwaitAuth? ==> Delivers(env, rows, d1, ws, f.second)
    ensures ReachableDuo(env, rows, id, d')
    ensures d'.client == Rendered(cl, f).client && d'.said == Rendered(cl, f).said
  {
    hide ReachableDuo, React, Delivers;
    DialledReachable(env, rows, id, cl);
    WaitReaches(env, rows, id, Dialled(cl, id), vs, f.first, f);
    d' := AfterWait(env, rows, Dialled(cl, id), vs, f.first, f);
    if d'.client.phase.AwaitAuth? {
      WaitReaches(env, rows, id, d', ws, f.second, f);
      d' := AfterWait(env, rows, d', ws, f.second, f);
    }
  }

  /** A game object at the client's end of a joint state. */
  ghost predicate InRun(g: Game, env: Env, rows: seq<Character>, id: SockId, d: Duo)
    reads g
  {
    ReachableDuo(env, rows, id, d) && g.Now() == d.client && g.said == d.said
  }

  /** One frame of the object in a joint run leaves it in a joint run. */
  method RenderConnected(
    g: Game, f: Frame, ghost env: Env, ghost rows: seq<Character>, ghost id: SockId, ghost d: Duo, ghost vs: seq<Event>)
    returns (fault: bool, ghost d': Duo)
    requires InRun(g, env, rows, id, d) && !d.client.phase.HungUp? && UniqueIds(rows)
    requires Waits(d.client, f) ==> Delivers(env, rows, AfterKey(d, f), vs, f.first)
    modifies g
    ensures !fault && InRun(g, env, rows, id, d')
  {
    hide ReachableDuo, Rendered, Delivers, Waits, Joint;
    HasKey(env, rows, id, d, f);
    d' := FrameIsRun(env, rows, id, d, f, vs);
    fault := g.Render(f);
  }

  /** In a joint run no frame uses a key it never got. */
  lemma HasKey(env: Env, rows: seq<Character>, id: SockId, d: Duo, f: Frame)
    requires ReachableDuo(env, rows, id, d) && UniqueIds(rows)
    ensures !NullKey(d.client, f.keys)
  {
    hide ReachableDuo;
    ReachableIsJoint(env, rows, id, d);
  }

  method RenderDialling(
    g: Game, f: Frame, ghost env: Env, ghost rows: seq<Character>, ghost id: SockId, ghost vs: seq<Event>, ghost ws: seq<Event>)
    returns (fault: bool, ghost d': Duo)
    requires Dials(g.Now(), f) && Delivers(env, rows, Dialled(g.Now(), id), vs, f.first)
    requires var d1 := AfterWait(env, rows, Dialled(g.Now(), id), vs, f.first, f);
             d1.client.phase.AwaitAuth? ==> Delivers(env, rows, d1, ws, f.second)
    modifies g
    ensures !fault && InRun(g, env, rows, id, d')
  {
    hide ReachableDuo, Rendered, Delivers, AfterWait;
    d' := DialIsRun(env, rows, id, g.Now(), f, vs, ws);
    fault := g.Render(f);
    assert [] + Rendered(old(g.Now()), f).said == Rendered(old(g.Now()), f).said;
  }

  /**
   * A game object that is PLAYING in a joint run has a session on the server under its username, and that
   * session records its current character, which is a row of the table that the session's player owns.
   */
  lemma PlayingGameAgrees(g: Game, env: Env, rows: seq<Character>, id: SockId, d: Duo)
    requires InRun(g, env, rows, id, d) && UniqueIds(rows) && g.gameState.PLAYING?
    ensures d.side.AsSession? && d.side.s.username == g.username && g.currentCharacter.Some?
    ensures d.side.s.characterID == g.currentCharacter.value.id
    ensures exists ch :: ch in rows && ch.id == d.side.s.characterID && ch.playerID == d.side.s.playerID
  {
    hide ReachableDuo;
    ReachableIsJoint(env, rows, id, d);
    JointPlayingAgrees(rows, d);
  }
}
