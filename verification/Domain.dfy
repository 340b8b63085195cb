/** Entities shared by the login server and its peers. */
module Domain {
  import opened Prelude
  import opened HexCodec
  import opened Credentials

  type SockId = nat

  const MAX_ATTEMPTS := 3
  const GUIDS := 0x1_0000_0000_0000_0000

  datatype Location = Location(id: nat, name: string, file: string, hash: string, version: nat)
  datatype Player = Player(id: nat, username: string, stored: Stored, locked: bool)
  datatype Character = Character(id: nat, playerID: nat, name: string, locationID: nat)

  /** The rows visible to one transaction. */
  datatype Db = Db(players: seq<Player>, characters: seq<Character>)

  /**
   * What the login server never changes once it runs: the password check, the catalogue, the id-to-name index,
   * and how many places `reserve` granted beyond the one per loaded map that it was asked for.
   */
  datatype Env = Env(accepts: (Stored, seq<byte>) -> bool, allMaps: seq<Location>, idToName: map<nat, string>, spare: nat)

  /** The places of `mapServers` after `reserve`. */
  function Room(env: Env): nat {
    |env.allMaps| + env.spare
  }

  /** One message as one receive delivers it; `Empty` is activity without any bytes. */
  datatype Inbound =
    | Empty
    | Identity(username: string, encrypted: seq<byte>)
    | VersionMismatch
    | RegistrationRequest(name: string, address: string, port: nat)
    | AdvertiseMaps(maps: seq<Location>)
    | MapAck
    | RequestCharacters
    | SelectCharacter(id: nat)
    | SelectTruncated
    | OpcodeTruncated
    | OtherMessage(opcode: nat)

  datatype Outbound =
    | Challenge
    | AuthResponse(successful: bool, remaining: int)
    | RegistrationResponse
    | NotNeeded
    | RequiredMaps(maps: seq<Location>)
    | PlayerCharacters(rows: seq<Character>)
    | Instructions(friendlyName: string, host: string, port: nat)
    | NoMapServer
    | MalformedPacket

  /**
   * A send delivers and returns a positive count, or it delivers nothing: it returns zero, returns zero and
   * marks the socket as failed, or returns a negative number.
   */
  datatype SendResult = Sent | Lost | Broken | Negative

  /** The test `send() == 0`, which a negative result does not meet. */
  predicate IsZero(r: SendResult) {
    r.Lost? || r.Broken?
  }

  /**
   * A socket: a queue of messages to read, the history of messages sent, and its flags. `read` and
   * `unanswered` count the messages taken by the login phase and the registration replies it failed to send.
   */
  datatype Sock = Sock(inbox: seq<Inbound>, outbox: seq<Outbound>, error: bool, connected: bool,
                       read: nat, unanswered: nat)

  const NEW_SOCK := Sock([], [], false, true, 0, 0)

  datatype ConnState = Fresh | ChallengeSent | LoginFailed | MapList | MapWaitAck | Done

  datatype Connection = Connection(
    socket: Option<SockId>,
    state: ConnState,
    attempts: nat,
    name: Option<string>,
    port: Option<nat>,
    address: Option<string>,
    maps: Option<seq<Location>>)

  function NewConnection(id: SockId): Connection {
    Connection(Some(id), Fresh, 0, None, None, None, None)
  }

  /** `addr` stands for the session object's address, which the username index stores. */
  datatype Session = Session(addr: nat, guid: nat, playerID: nat, username: string, socket: SockId, characterID: nat)

  datatype MapServer = MapServer(host: string, port: nat, socket: SockId, maps: seq<Location>, friendlyName: string)

  /** A connection that has announced everything a map server's record needs. */
  predicate Enrollable(c: Connection) {
    c.socket.Some? && c.name.Some? && c.port.Some? && c.address.Some? && c.maps.Some?
  }

  /** The record that registration stores. */
  function Record(c: Connection): MapServer
    requires Enrollable(c)
  {
    MapServer(c.address.value, c.port.value, c.socket.value, c.maps.value, c.name.value)
  }

  function Receive(k: Sock): Sock
    requires k.inbox != []
  {
    k.(inbox := k.inbox[1..])
  }

  function Transmit(k: Sock, m: Outbound, r: SendResult): Sock {
    match r
    case Sent => k.(outbox := k.outbox + [m])
    case Lost => k
    case Broken => k.(error := true)
    case Negative => k
  }

  predicate IsFailure(m: Outbound) {
    m.AuthResponse? && !m.successful
  }
}
