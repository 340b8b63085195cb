# A verified model of PlayPG's servers and client protocols

This project models the login server of PlayPG (its shared containers, its three threads, its per-connection
state machine), the two peers that talk to it (game client and map server), the start-up synchronisation of the
map catalogue, the credential and wire codecs, the tile grid, and client-side movement. It proves what every
handler keeps, what holds in every state of every run, and how the ends of each protocol agree.

`dafny verify dfyconfig.toml` checks everything. The modules, bottom up:

| file | subject |
|---|---|
| `Prelude.dfy` | options, stable filtering, counting |
| `HexCodec.dfy` | hex text of salts, digests and passwords; the stored credential |
| `Frame.dfy` | the length-prefixed registration frame |
| `Domain.dfy` | rows, messages, sockets, connections, sessions, map servers |
| `Handlers.dfy` | one visit to one connection or one session; the map offer |
| `Outcomes.dfy` | what each visit does, situation by situation |
| `LoginData.dfy` | the shared containers, and the effect of each critical section |
| `Threads.dfy` | the acceptor, incoming and connected threads; locks; runs |
| `Ownership.dfy`, `Connections.dfy`, `Sessions.dfy`, `Routing.dfy` | the four parts of the global invariant |
| `Runs.dfy` | theorems about every run |
| `SharedOffer.dfy` | the run in which two pending offers of one map end in a dangling read |
| `SecondLogin.dfy` | the run in which a user who logs in twice drops out of the username index |
| `LoginServer.dfy` | the server as an object: handlers and both loops, method by method |
| `WholeLoops.dfy` | the object's loops are runs of the thread system |
| `Catalogue.dfy` | the `locations` table against the map files |
| `EndToEnd.dfy` | catalogue, registration and selection together; enrolment and login together |
| `ClientLogin.dfy`, `ClientProgress.dfy` | client and login server over one socket: agreement, and what the client achieves |
| `GameClient.dfy` | the client as an object; its frames are steps of those joint runs |
| `Registration.dfy`, `RegistrationProgress.dfy` | map server and login server over one socket: agreement, and when it is registered |
| `MapServerProcess.dfy` | the map server as an object; its registration is steps of those joint runs |
| `SocketViews.dfy` | who holds one socket in a run of the whole server, and what each step does to that |
| `ClientInRuns.dfy`, `MapServerInRuns.dfy` | one client, one map server, at a socket of the whole server among any other peers |
| `Grid.dfy`, `Movement.dfy` | parsed tiles; moves checked against them |

## How it is modelled

A socket is an id with a queue of messages to read, the messages sent so far, and its flags. What a handler
learns from outside (the fate of a send, a negative result included, the database rows, the address of a new
object, spare capacity after `reserve` or a reallocation) is an argument, so a theorem for all arguments covers every
environment. The thread system takes
one step at a time for each lock operation and each loop turn, in any order, with messages and socket failures
arriving at any moment. A raw pointer into `mapServers` carries the generation of the vector's storage; growing
past the reserved capacity starts a new generation, and reading through an older pointer is a fault.

Results that say where the code falls short, each with the exact condition:

* two connections may be offered the same map, because only served maps are checked and not pending offers;
  `SharedOffer.SharedOfferFaults` is a run, among peers that keep to the protocol, that then reads through a dangling
  pointer, `Runs.DanglingIff` gives the exact bound, and `Runs.PointersNeverDangle` shows that disjoint offers are
  enough;
* a second login of a user who is already online is not indexed, and the first one to break removes the shared
  entry; `SecondLogin.SecondLoginIsNotIndexed` is such a run, and `Runs.IndexCompleteIff` gives the exact condition;
* a registration request whose response cannot be sent leaves the connection where it was and may be repeated;
  `Handlers.MessageLowersRank`;
* a negative result of the send is taken for success, so a character may be recorded whose player was told nothing;
  `Handlers.RecordedUntold` is such a case, and `Handlers.SelectionIsRecorded` gives the exact condition;
* a client whose first connection brings no challenge in time uses a null key at the next press of the space bar;
  `GameClient.NullKeyIff`;
* in builds without asserts the two hex decoders differ on odd-length text, and with asserts one of them stops
  there; `HexCodec.DecodersAgree`, `HexCodec.HexStringToByteVector`;
* a registration frame of more than 2048 bytes is cut; `Frame.FrameRoundTrip`;
* `isSpawn` is never true; `Grid.GameMap.GetTile`;
* a gap in the border ring lets a player step off the map; `Movement.SafeIffBordered`;
* after a change of world, moves are still checked against the first map; `Movement.WalksThroughWalls` walks onto a
  solid tile, and `Movement.SafeOnScreenIff` says for which pairs of maps no queue of moves can.

Where comments and code differ, the model follows the code: the state comment promises that MAP_WAIT_ACK waits for
an acknowledgement, but any bytes at all are taken for one (server/LoginServerIncomingHandler.cpp:380-387); the
comment on CHALLENGE_SENT says a failing map server is disconnected at once, but after a failed send it stays in
that state (server/LoginServerIncomingHandler.cpp:202-204).

## Model

| member | source | states |
|---|---|---|
| HexCodec.BytesToString | include/net/crypto/SHACrypto.hpp:85-95 | the upper-case loop yields the base16 text of its input (section 8 of RFC 4648) |
| HexCodec.ByteVectorToString | src/util/Util.cpp:48-56 | the lower-case loop yields the lower-case text |
| HexCodec.HexStringToByteVector | src/util/Util.cpp:58-71 | a build with asserts stops on odd length; otherwise the loop decodes two characters at a time, a lone last one on its own |
| HexCodec.StringToSalt | src/net/crypto/SHACrypto.cpp:101-117 | the loop decodes text of even length, and gives nothing for odd length |
| HexCodec.StringToSHA256 | src/net/crypto/SHACrypto.cpp:83-99 | the loop fills 32 bytes from the first 64 characters |
| HexCodec.DecodeEncode | src/util/Util.cpp:48-71 | both decoders invert both encoders on every byte sequence |
| HexCodec.EncodeInjective | include/net/crypto/SHACrypto.hpp:85-95 | two byte sequences have the same text only if they are equal |
| HexCodec.DecodersAgree | src/net/crypto/SHACrypto.cpp:101-117 | without asserts the two decoders agree on a string if and only if its length is even; on odd length the salt decoder gives nothing; on hex text of either case both give the values of its digit pairs |
| HexCodec.EncodeDecode | src/util/Util.cpp:48-71 | re-encoding decoded text gives it back up to case if and only if it was hex of even length |
| HexCodec.AlphabetCases | include/net/crypto/SHACrypto.hpp:81-95 | the two alphabets: the same digits, capitals in one and small letters in the other |
| HexCodec.EncodedBytes | src/util/Util.cpp:48-56 | two digits for each byte, the high one first, zero-padded, in either case |
| HexCodec.OddPieces | src/net/crypto/SHACrypto.cpp:110-114 | what `strtoul` makes of pieces with one digit, a space, a sign, or none |
| Credentials.CheckPassword | server/LoginServerIncomingHandler.cpp:469-473 | decoding the salt, hashing and comparing texts decides acceptance |
| Credentials.CredentialRoundTrip | server/LoginServer.cpp:226-232 | an enrolled credential accepts exactly the attempts with the enrolled digest under the enrolled salt |
| Credentials.AcceptedDigestIsCanonical | server/LoginServerIncomingHandler.cpp:469-473 | a stored digest that accepts anything is 64 upper-case digits and decodes to the attempt's digest |
| Frame.BuildFrame | src/net/packets/LoginPackets.cpp:89-102 | the constructor appends opcode, two length-prefixed strings and the port |
| Frame.FrameRoundTrip | server/LoginServerIncomingHandler.cpp:184-197 | the server reads back what the map server wrote if and only if the frame fits the 2048-byte receive |
| Frame.OpcodeDecides | server/LoginServerIncomingHandler.cpp:163-184 | a packet with any other opcode is no registration |
| Frame.FrameBytes | src/net/packets/LoginPackets.cpp:89-102 | the bytes of one frame, field by field |
| Handlers.NegotiateMaps | server/LoginServerIncomingHandler.cpp:310-340 | the nested loops, `break` included, compute the offer |
| Handlers.OfferIsFilter | server/LoginServerIncomingHandler.cpp:310-340 | by name and hash the offer is the advertised list with unwanted entries left out: order and repetitions kept |
| Handlers.WantedIff | server/LoginServerIncomingHandler.cpp:315-336 | an entry is wanted exactly when the first catalogue entry of its name has its hash and nobody serves the name |
| Handlers.OfferIsNeeded | server/LoginServerIncomingHandler.cpp:310-340 | by name and hash the offer is exactly the needed part of the advertised list |
| Handlers.OfferRows | server/LoginServerIncomingHandler.cpp:315-327 | every offered map is the first catalogue entry of its name and is not served |
| Handlers.OfferAnswers | server/LoginServerIncomingHandler.cpp:315-327 | every offered map answers an advertised one of the same name and hash |
| Handlers.OfferEmpty | server/LoginServerIncomingHandler.cpp:342-351 | NOT_NEEDED is sent exactly when nothing advertised is wanted |
| Handlers.DispatchKeepsSound | server/LoginServerIncomingHandler.cpp:136-409 | every handler keeps the bookkeeping that discharges the REQUIREs, counts down failures, and reports 0 attempts left exactly when it ends the connection |
| Handlers.MessageLowersRank | server/LoginServerIncomingHandler.cpp:136-273 | a consumed message brings DONE nearer if and only if it is not a registration request whose response failed to go out |
| Handlers.FirstPlayerIs | server/LoginServerIncomingHandler.cpp:421-447 | the row used is the first of the username; there is none exactly when no row has it |
| Handlers.SessionOpensIff | server/LoginServerIncomingHandler.cpp:415-511 | a session opens exactly for an accepted identity of an unlocked account, and is that player's |
| Handlers.LoginEndsIff | server/LoginServerIncomingHandler.cpp:425-467 | an attempt ends the connection without a session exactly when the account is locked or this is the third failure |
| Handlers.OneShot | server/LoginServerIncomingHandler.cpp:240-266 | after any failure a connection can no longer become a map server |
| Handlers.SelectionIsRecorded | server/LoginServerConnectedHandler.cpp:204-262 | a session records a character exactly when the selection finds its one owned row and a server and the send does not return zero; the instructions were delivered exactly when the result was positive |
| Handlers.RecordedUntold | server/LoginServerConnectedHandler.cpp:247-262 | a negative send result records the character though nothing was delivered |
| Handlers.SelectionAnswers | server/LoginServerConnectedHandler.cpp:184-256 | disconnection, NO_MAP_SERVER and instructions each answer exactly one situation |
| Handlers.AttendKeeps | server/LoginServerConnectedHandler.cpp:85-106 | serving a session never changes whose it is and sends no login response |
| Outcomes.FreshOutcome | server/LoginServerIncomingHandler.cpp:115-134 | challenged; given up only if the socket is broken |
| Outcomes.SilenceOutcome | server/LoginServerIncomingHandler.cpp:158-164 | activity without bytes ends a connection in each of the four waiting states, and nothing is sent |
| Outcomes.MismatchOutcome | server/LoginServerIncomingHandler.cpp:178-183 | a version mismatch ends it too |
| Outcomes.FailureOutcome | server/LoginServerIncomingHandler.cpp:204-220 | each failed attempt: one attempt fewer, the peer told how many remain, done after the third |
| Outcomes.LockedOutcome | server/LoginServerIncomingHandler.cpp:454-467 | a locked account: told that nothing remains, disconnected, done |
| Outcomes.WelcomeOutcome | server/LoginServerIncomingHandler.cpp:473-482 | the right password: told so, and the socket goes to a session of that player |
| Outcomes.OpeningOutcome | src/net/PlayerSession.cpp:42-51 | the session object: next guid, player and username proved, that socket, no character |
| Outcomes.RequestOutcome | server/LoginServerIncomingHandler.cpp:184-202 | a registration request: details kept, and MAP_LIST only if the response went out |
| Outcomes.NoListOutcome | server/LoginServerIncomingHandler.cpp:294-298 | anything but a map list ends the connection |
| Outcomes.NotNeededOutcome | server/LoginServerIncomingHandler.cpp:342-351 | nothing needed: NOT_NEEDED is sent and the connection is done |
| Outcomes.OfferOutcome | server/LoginServerIncomingHandler.cpp:353-365 | something needed: exactly the needed rows are sent and stored, whatever became of the send |
| Outcomes.AckOutcome | server/LoginServerIncomingHandler.cpp:380-387 | any bytes acknowledge |
| Outcomes.BrokenOutcome | server/LoginServerIncomingHandler.cpp:54-58 | a connection whose socket broke is done at its next turn |
| Outcomes.NoOpcodeOutcome | server/LoginServerConnectedHandler.cpp:85-93 | activity without a whole opcode marks the session's socket as failed |
| Outcomes.ListOutcome | server/LoginServerConnectedHandler.cpp:125-158 | the list holds every row of the player and no other, in order; a send that returns zero disconnects and marks the socket |
| Outcomes.OddRequestOutcome | server/LoginServerConnectedHandler.cpp:161-171 | a truncated selection is answered as malformed, any other opcode is ignored |
| Outcomes.BrokenSessionOutcome | server/LoginServerConnectedHandler.cpp:64-77 | a session whose socket broke is cleared and unindexed, its socket destroyed, other entries kept |
| Threads.LocksKept | server/LoginServer.cpp:96-117 | each mutex is held by exactly the thread whose program point says so |
| Threads.UnblockedMoves | server/LoginServer.cpp:96-117 | a thread that waits for no lock can always take a step |
| Threads.NoDeadlock | server/LoginServerIncomingHandler.cpp:485-493 | whoever a thread waits for can move, at once or after a third thread that can |
| Ownership.ConservedKept | server/LoginServerIncomingHandler.cpp:53-111 | every step of every thread keeps exactly one owner for every accepted socket |
| Ownership.ConservedIsExclusive | server/LoginServerIncomingHandler.cpp:480-481 | one owner each means that no two containers share a socket |
| Ownership.PurgeHolds | server/LoginServerIncomingHandler.cpp:90-111 | the purge moves sockets of done connections to the destroyed ones, and loses none |
| Connections.ConnsKept | server/LoginServerIncomingHandler.cpp:53-87 | a connection no thread is working on has its socket, or is done |
| Connections.VisitKeepsConns | server/LoginServerIncomingHandler.cpp:53-87 | a loop turn never meets a null socket and never fails a REQUIRE |
| Sessions.SessionsKept | server/LoginServerConnectedHandler.cpp:63-120 | every step keeps addresses distinct, index entries live, guids increasing, null sessions only behind a running pass |
| Sessions.SweepIsStable | server/LoginServerConnectedHandler.cpp:109-120 | the purge keeps exactly the live sessions, in order |
| Sessions.IndexEntriesStay | server/LoginServerIncomingHandler.cpp:492 | a later login never replaces an index entry |
| Sessions.CompleteKept | server/LoginServerIncomingHandler.cpp:485-493 | while live usernames are distinct, each step keeps the index complete |
| Routing.CatalogKept | server/LoginServerIncomingHandler.cpp:389-408 | every step keeps stored lists backed by catalogue and report, names leading to a server that stores them, and storage accounted for |
| Routing.PointersLiveIff | server/LoginServer.cpp:211 | no pointer dangles if and only if no more servers registered than places were reserved, however many `reserve` granted |
| Routing.RouteIsGood | server/LoginServerConnectedHandler.cpp:206-244 | a found route leads to a server that stores the location's map and reported it |
| Routing.RouteIsExact | server/LoginServerConnectedHandler.cpp:206-244 | with pointers live: no route for an id outside the index, the first server that stores the name if there is one, unserved if there is none |
| Routing.GrowsWhenFull | server/LoginServerIncomingHandler.cpp:393-394 | a registration replaces the storage exactly when it is full, and keeps the earlier servers in place |
| Routing.StableKept | server/LoginServerIncomingHandler.cpp:321-327 | while no two pending offers share a map, every registration brings a new name |
| Runs.RunInv | server/LoginServer.cpp:88-121 | the global invariant holds in every state of every run |
| Runs.OneOwner | server/LoginServerIncomingHandler.cpp:393-394 | in every run every accepted socket has exactly one owner, and no other socket has any |
| Runs.MovedOutIsDone | server/LoginServerIncomingHandler.cpp:53-58 | with the lock free, a connection whose socket moved out is done |
| Runs.PurgeDropsDone | server/LoginServerIncomingHandler.cpp:96-99 | the purge drops exactly the done connections and keeps the others in order |
| Runs.OnlyDanglingFaults | server/LoginServerConnectedHandler.cpp:241-244 | in every run the only possible fault is a read through a dangling map server pointer, after more registrations than reserved places, of which there is one per loaded map at least |
| Runs.DanglingIff | server/LoginServer.cpp:211 | in every run pointers are sound exactly while at most as many servers registered as places were reserved |
| Runs.PointersNeverDangle | server/LoginServerIncomingHandler.cpp:393-404 | with disjoint pending offers: servers <= served names <= loaded maps, no dangling pointer, no fault |
| Runs.NeverDeadlocked | server/LoginServerIncomingHandler.cpp:391 | in every run, for every thread, it or one it waits for can move |
| Runs.InstructionsAreRight | server/LoginServerConnectedHandler.cpp:204-262 | instructions go to the owner of the selected character, name a server that stores and reported its map, and the session records it |
| Runs.SelectionIsRouted | server/LoginServerConnectedHandler.cpp:204-262 | in every run with pointers live and the send delivered, a selected own character is answered with the first server that stores its map, and recorded; NO_MAP_SERVER exactly when the location is unknown or no server stores its map |
| Runs.SessionsAreAuthenticated | server/LoginServerIncomingHandler.cpp:473-493 | each creating step has a message waiting on that socket that proves the player |
| Runs.SessionsStem | server/LoginServerIncomingHandler.cpp:473-493 | every session held in any state of any run stems from an earlier step at which a message on its socket proved its player and username |
| Runs.IndexNeverDangles | server/LoginServerConnectedHandler.cpp:63-77 | every index entry is the address of a live session of that username, duplicates included |
| Runs.IndexCompleteIff | server/LoginServerIncomingHandler.cpp:487-493 | the index is complete throughout a run if and only if no user is ever online twice |
| Runs.GuidsIncrease | src/net/PlayerSession.cpp:42-51 | below 2^64 sessions, guids strictly increase along the list |
| Runs.FailuresCountDown | server/LoginServerIncomingHandler.cpp:204-220 | on every socket failed responses carry strictly decreasing attempts, and login takes three messages plus unanswered requests |
| Runs.ZeroIsFinal | server/LoginServerIncomingHandler.cpp:450-467 | a peer told 0 attempts is one the server no longer serves |
| Runs.ThreeMessagesAtMost | server/LoginServerIncomingHandler.cpp:217-220 | a connection that took three answered messages is done |
| SharedOffer.SharedOfferFaults | server/LoginServerIncomingHandler.cpp:321-327 | a run with two pending offers of one map, all sends delivered and every peer following the protocol, ends in a dangling read |
| SharedOffer.BothRegister | server/LoginServerIncomingHandler.cpp:393-404 | both map servers, each sent the offer it acknowledged, register, and the one name then points to replaced storage |
| SecondLogin.SecondLoginIsNotIndexed | server/LoginServerConnectedHandler.cpp:66-73 | a run leaves a live session unindexed, and a longer one leaves an online user with no entry at all |
| LoginServer.Server.constructor | server/LoginServer.cpp:211 | the server starts empty, with room for at least one map server per loaded map |
| LoginServer.Server.AcceptConnection | server/LoginServer.cpp:104-110 | an accepted socket becomes a fresh connection at the end of the list |
| LoginServer.Server.ProcessFreshSocket | server/LoginServerIncomingHandler.cpp:115-134 | the containers change as the protocol's step says: challenge sent, or done on error |
| LoginServer.Server.ProcessChallengeSentSocket | server/LoginServerIncomingHandler.cpp:136-221 | the same for identity, version mismatch, registration request and unexpected data |
| LoginServer.Server.ProcessLoginFailedSocket | server/LoginServerIncomingHandler.cpp:223-273 | the same for a second or third attempt |
| LoginServer.Server.ProcessLoginAttempt | server/LoginServerIncomingHandler.cpp:415-527 | unknown user, locked account, session and wrong password change the containers as the specification says |
| LoginServer.Server.FindPlayer | server/LoginServerIncomingHandler.cpp:421-447 | the query's first row of that username |
| LoginServer.Server.ProcessMapAuthenticationRequest | server/LoginServerIncomingHandler.cpp:529-547 | the state moves to MAP_LIST exactly when the response went out |
| LoginServer.Server.ProcessMapListSocket | server/LoginServerIncomingHandler.cpp:275-366 | the offer is stored and sent, or NOT_NEEDED and done |
| LoginServer.Server.ProcessMapWaitAckSocket | server/LoginServerIncomingHandler.cpp:368-409 | any bytes register the server and finish the connection |
| LoginServer.Server.RegisterServer | server/LoginServerIncomingHandler.cpp:389-405 | `emplace_back`, storage replaced when full, then the names |
| LoginServer.Server.EmplaceNames | server/LoginServerIncomingHandler.cpp:401-404 | the loop adds the new names and overwrites no entry |
| LoginServer.Server.ProcessIncoming | server/LoginServerIncomingHandler.cpp:41-113 | a scan is the composition of its turns, then the purge; readiness of all connections is kept |
| LoginServer.Server.ProcessCharacterRequest | server/LoginServerConnectedHandler.cpp:125-158 | exactly the player's own characters are sent; a failed send marks the socket |
| LoginServer.Server.ProcessCharacterSelect | server/LoginServerConnectedHandler.cpp:160-263 | truncated, not owned, unknown map, unserved map and served map each change the session and socket as specified |
| LoginServer.Server.ProcessSession | server/LoginServerConnectedHandler.cpp:63-107 | one loop turn: a failed session is cleared and unindexed, any other is served |
| LoginServer.Server.ProcessConnected | server/LoginServerConnectedHandler.cpp:42-123 | a pass is the composition of its turns, then the removal of cleared sessions |
| LoginServer.TurnIsVisit | server/LoginServerIncomingHandler.cpp:53-87 | the object's turn is the thread system's visit with its nested section |
| LoginServer.TurnKeepsReady | server/LoginServerIncomingHandler.cpp:53-87 | a turn leaves every connection ready for the next scan |
| WholeLoops.TurnReaches | server/LoginServerIncomingHandler.cpp:53-87 | a turn of the object is one to four steps of the incoming thread |
| WholeLoops.ScanIsRun | server/LoginServerIncomingHandler.cpp:50-112 | in a reachable state a scan's precondition holds and it leads to a reachable state |
| WholeLoops.ReachablePasses | server/LoginServerConnectedHandler.cpp:56-120 | a pass is safe in a reachable state if and only if no more servers registered than places were reserved |
| WholeLoops.PassIsRun | server/LoginServerConnectedHandler.cpp:56-120 | such a pass leads to a reachable state |
| Catalogue.Catalog.ProcessMaps | server/LoginServer.cpp:123-213 | the loop over the files is the fold of single-file synchronisations |
| Catalogue.LoadSyncs | server/LoginServer.cpp:123-211 | one row per loaded name; version the greatest of old and loaded with the hash of the first to carry it; ids, names and other rows kept |
| Catalogue.UnnamedUntouched | server/LoginServer.cpp:136-190 | a row whose name no file carries is unchanged |
| Catalogue.LoadIndexes | server/LoginServer.cpp:202-207 | `mapIDToName` agrees with the rows and with the loaded maps |
| Catalogue.LoadIsComplete | server/LoginServer.cpp:202-207 | `allMaps` has one entry for each parsed file, in file order, under the id of the row of its name; the ids indexed are exactly those |
| Catalogue.LoadCreates | server/LoginServer.cpp:152-156 | every added row has an unused id and the path of the first file of its name |
| Catalogue.LoadIsIdempotent | server/LoginServer.cpp:123-211 | a second load of the same files changes nothing in the database |
| EndToEnd.PlayersReachTheirMap | server/LoginServerConnectedHandler.cpp:204-262 | over files, table and any run: instructions lead to a registered server that stores the map loaded from a file of the location's name, under the location's id, and that reported that file's hash |
| EndToEnd.PlayersAreRouted | server/LoginServerConnectedHandler.cpp:204-262 | conversely, a player whose character's map some file brought and some server stores is sent to the first such server |
| EndToEnd.EnrolledPlayerLogsIn | server/LoginServerIncomingHandler.cpp:450-493 | an enrolled player gets a session exactly when unlocked and the attempt's digest is the enrolled one |
| ClientLogin.PlayingAgrees | client/PlayPG.cpp:242-335 | a client that is PLAYING has a session under its username that records its current character, a row owned by the session's player |
| ClientLogin.HangUpAgrees | client/PlayPG.cpp:183-191 | a client that disconnected on 0 attempts was given up by the server too |
| ClientProgress.FirstLoginSucceedsIff | client/PlayPG.cpp:94-194 | on a new socket, after the turns of both ends, the client is at CHARACTER_SELECT exactly when its password is right and its account not locked |
| ClientProgress.LoginSucceedsIff | client/PlayPG.cpp:151-194 | the same for a further attempt |
| ClientProgress.PlayingIsReached | client/PlayPG.cpp:242-323 | from CHARACTER_SELECT, after the turns of both ends, the client is PLAYING with its first character, which the session records, exactly when that character's location has a route |
| ClientProgress.ServedMapIsReached | server/LoginServerConnectedHandler.cpp:204-262 | which, with pointers live, is exactly when some registered server stores the character's map |
| ClientLogin.RunOk | client/PlayPG.cpp:94-194 | the joint invariant of client and server holds in every state of every joint run |
| GameClient.Game.DoLogin | client/PlayPG.cpp:94-194 | what is put on the socket, the result, and whether socket and key remain, for a failed connection, missing replies and every answer |
| GameClient.Game.Render | client/PlayPG.cpp:226-356 | one frame, game state by game state: PLAYING exactly on instructions, what is put on the socket, the character chosen; a fault exactly when it would use a key it never got |
| GameClient.NullKeyIff | client/PlayPG.cpp:96-155 | the next press of the space bar faults exactly when the connection succeeded and brought no challenge |
| GameClient.FrameIsRun | client/PlayPG.cpp:226-356 | a frame of a connected client, with the server's visits while it waits, is steps of a joint run to the client that `Render` computes |
| GameClient.DialIsRun | client/PlayPG.cpp:94-194 | the first frame on a new socket likewise |
| GameClient.RenderConnected | client/PlayPG.cpp:226-356 | a game object in a joint run stays in one, frame by frame, and never faults |
| GameClient.RenderDialling | client/PlayPG.cpp:94-194 | a game object that connects enters a joint run |
| GameClient.PlayingGameAgrees | client/PlayPG.cpp:309-335 | a game object that is PLAYING in a joint run has a session under its username that records its current, owned character |
| SocketViews.QuietStep | server/LoginServer.cpp:96-117 | a step that does not visit a socket changes neither the socket nor its holder |
| SocketViews.ScanTouch | server/LoginServerIncomingHandler.cpp:53-87 | a visit hands the socket on exactly as the connection's handler says |
| SocketViews.ServeTouch | server/LoginServerConnectedHandler.cpp:63-107 | a visit to a session keeps its socket there, or destroys it on error |
| ClientInRuns.PlayingAgreesInRuns | server/LoginServerConnectedHandler.cpp:160-263 | in every run of the whole server, among any other peers: a PLAYING client has a session at its socket, under its username, that records its current character, a row the session's player owns |
| ClientInRuns.HangUpAgreesInRuns | client/PlayPG.cpp:183-191 | in every such run a client that hung up was given up by the server |
| Registration.RegistrationAgrees | server/MapServer.cpp:182-229 | a registered map server returned success; the record holds its details and a non-empty list equal, up to ids, to the one it decoded, and a sub-list of what it advertised |
| RegistrationProgress.OfferedIsRegistered | server/MapServer.cpp:211-229 | an offered map server that reads the offer, whose acknowledgement arrives, is registered by the next visit |
| RegistrationProgress.HandshakeRegistersIff | server/MapServer.cpp:93-230 | with every send delivered and each end taking its turn it is registered exactly when some map it brings is needed; otherwise it is turned away |
| Registration.SuccessWasOffered | server/MapServer.cpp:199-229 | a map server that returned success was offered that list and never answered NOT_NEEDED |
| Registration.FailureStaysOut | server/MapServer.cpp:93-212 | a map server that returned failure is never registered afterwards |
| Registration.VisitKeeps | server/LoginServerIncomingHandler.cpp:368-409 | the login server can always take its turn with this peer, and the joint invariant is kept |
| Registration.OfferIgnoresIds | include/net/packets/LoginPackets.hpp:269-292 | losing the database id on the wire does not change the offer |
| MapServerProcess.Process.RegisterWithMasterServer | server/MapServer.cpp:93-230 | success exactly on a challenge with right key and version, a response and a list; what was put on the socket and decoded, in every case |
| MapServerProcess.WaitReaches | server/MapServer.cpp:104-131 | a wait, with the server's visits and any socket failure during it, is steps of a joint run |
| MapServerProcess.RegisterInRun | server/MapServer.cpp:93-230 | the whole call is steps of a joint run |
| MapServerProcess.RegisteredProcessAgrees | server/MapServer.cpp:182-229 | when the server registers this process, at once or later, its call returned true and record and process agree |
| MapServerProcess.SuccessfulProcessWasWanted | server/MapServer.cpp:202-208 | a process whose call returned true was never answered NOT_NEEDED |
| MapServerInRuns.RegistrationAgreesInRuns | server/LoginServerIncomingHandler.cpp:389-408 | in every run of the whole server, among any other peers and with any sends failing: a `mapServers` entry with this peer's socket agrees with the peer |
| MapServerInRuns.FailureStaysOutInRuns | server/MapServer.cpp:93-212 | in every such run a map server that returned failure has no entry |
| Grid.GameMap.constructor | src/Map.cpp:50-69 | a parsed map holds one tile per place, each agreeing with the layers, and the last spawn tile |
| Grid.GameMap.ParseTile | src/Map.cpp:78-111 | the innermost loop: solid, interesting and spawn exactly when some laid layer says so |
| Grid.GameMap.ParseTiles | src/Map.cpp:75-114 | the loops fill the vector row by row and find the last spawn tile in row-major order |
| Grid.GameMap.GetTile | src/Map.cpp:46-48 | the 32-bit lookup returns what the layers say about that place |
| Grid.PlaceIsOnto | include/Map.hpp:129-131 | every index is the place of exactly one tile |
| Grid.ResolvesIff | include/Map.hpp:129-131 | the 32-bit computation is right for every tile if and only if there are at most 2^32 |
| Grid.LayersSay | src/Map.cpp:81-107 | any non-empty property counts, and only a layer of the spawn name spawns |
| Grid.ParsedIsUnique | src/Map.cpp:75-114 | the layers determine the tiles |
| Grid.SpawnIsUnique | src/Map.cpp:100-107 | the layers determine the spawn point |
| Movement.MovementSystem.Update | client/systems/MovementSystem.cpp:56-75 | the loop applies the queue in order, sends a packet for every move, blocked or not, and empties the queue |
| Movement.MovementSystem.ProcessEntity | client/systems/InputSystem.cpp:44-68 | the first pressed key in the source's order queues its move |
| Movement.KeyMove | client/systems/InputSystem.cpp:44-68 | a frame asks for at most one step to one of eight neighbours, and for none exactly when only the space bar is pressed |
| Movement.MovementSystem.PlayFrame | client/systems/InputSystem.cpp:44-68 | key presses and `update` take the entity the way the keys say |
| Movement.KeysLead | client/systems/InputSystem.cpp:45-60 | for every key and combination of keys, on positions: the tile led to if it is free, and no move if it is solid |
| Movement.TypingIsSafe | client/systems/MovementSystem.cpp:56-75 | with a solid border, whatever is typed keeps all entities on walkable tiles and all lookups inside the map |
| Movement.AllStayWalkable | client/systems/MovementSystem.cpp:56-75 | the same for any queue of unit moves of any entities |
| Movement.WalkableIsInside | include/Map.hpp:70-76 | walkable then means aligned, strictly inside the border, not solid |
| Movement.SafeIffBordered | include/Map.hpp:70-76 | no start and no queue leaves the map if and only if the border ring is solid |
| Movement.BatchesCompose | client/systems/MovementSystem.cpp:56-75 | how moves are spread over calls does not matter |
| Movement.SpawnStands | client/PlayPG.cpp:210-211 | a changed world has one player, on the spawn tile, walkable exactly when that tile is free |
| Movement.SafeOnScreenIff | client/PlayPG.cpp:196-224 | checking moves against another map keeps every entity, under every queue, on free tiles of the map on screen if and only if every step from a free tile there is looked up inside the other map and is blocked or ends on a free tile |
| Movement.OwnMapObeys | client/systems/MovementSystem.cpp:56-75 | for one map used for both, that condition is the solid border |
| Movement.WalksThroughWalls | client/PlayPG.cpp:337-346 | after one change of world a key press walks onto a solid tile, so this pair of maps is not safe |

## Left out

- RSA, PBKDF2 and MD5 are function-valued fields of `Crypto`, about which nothing is assumed; random salts are arguments.
- The 16-bit encoding of the buffer library, and its byte order: any invertible pair of functions.
- JSON text: a packet is its fields; 16-bit truncation of the JSON length is not modelled.
- Byte streams: one receive delivers one whole message, the leftover of a partly read one is not modelled; negative receive results are those of a failed socket. A negative send result transfers nothing and sets no flag by itself; the socket may fail at any moment.
- Session keys, join and login dates, the debug warnings on duplicate rows, and all logging.
- ODB transactions: each query sees one consistent set of rows; the length limits of columns are not modelled.
- `processCharacterSelect` reads `mapNameToConnection` without `mapServersMutex`; the lookup with its read is one atomic step here, so a race inside the hash table is not modelled.
- Connections, sessions and map servers are values in the server's sequences, updated by place; the address of a session object stands for the pointer in the username index, the sequence for `std::list` and `std::vector`.
- `done`, thread start-up and join: the loops of a run go on for ever, and a run is any finite part of it.
- ClientLogin.PlayingAgrees: supposes that sends succeed, sockets stay live and the character table is fixed, as the design does; in joint runs the client's waits end with a message, while its object also models a wait that ends with none; reconnecting after a hang-up starts a new run.
- Movement.MovementSystem.Update: requires that every lookup is inside the map, because outside it the source reads out of bounds; `Movement.TypingIsSafe` shows when callers meet this.
- Positions as floats: whole multiples of the tile size are integers here.
- A map without a spawn tile: the source leaves `spawnPoint` as constructed, here it is `None`.
- Front and back layer entities, rendering, camera, SDL, command lines, file parsing, `MapServer::run`, `MapServer::parseMaps` and `resolveNameFromMap` / `resolveVersionFromMap`: input, output, or one-branch functions that would only add easy members.
