# A verified model of the chat and friends game server

The server lets clients log in, pick a character in a lobby, and enter a world with chat rooms and friends. Its
logic runs on one strand, so every handler, timer and callback is one atomic step. This project models the logic as
Dafny values and objects and proves what every step keeps and what holds in every run.

How it is built:

- **State as values.** `Friends`, `Chats` and `Worlds` give every operation as a function on the state of the friend
  system, of the chat system and of the world; `Sessions` does so for one connection, and `ServerSteps` puts them
  together as a transition system whose events are the tasks of the game loop: an accepted connection, a packet, a
  broken connection, a posted transition, the two halves of the asynchronous query, a finalization, and the two
  timers. What the environment chooses (bytes, the validator's verdict, the order in which a hash container is
  visited, the order of the rows of a query, the times) is a parameter, so the theorems hold for all of it.
- **Objects as the server runs them.** `PendingFriendRequests`, `FriendSystem`, `ChatSystem`, `Registrar`, `PsqlFacade`,
  `GameWorld`, `IngameState`, `Mmoclient`, `PreauthState`, `LobbyState`, `BinarySerializer`, `BinaryDeserializer`,
  `BoostSocket` and `CommandlineClient` are classes whose methods update fields in place, with the loops of the
  original; each method is proved to turn the old state into the one that the function gives.
- **Invariants and runs.** `Friends.Consistent`, `Chats.Consistent`, `Worlds.Agrees` and
  `SessionInvariant.Invariant` are kept by every operation (`PacketSafety`, `ServerRuns`); so they hold in every
  reachable state, and the last part of `ServerRuns` and `LobbyRuns` says what that means for clients. `WorldRuns` runs
  the objects of the world through every sequence of logins, requests, timers and logouts, and `FittingRuns` bounds
  what the server sends in whole runs by what the clients ask.
- **What every packet brings about.** `Admission`, `LobbyEffects`, `RequestEffects` and `Departures` say of each packet,
  from its bytes on, what changes, who hears what, and that nothing else happens; `FriendEffects` and `ChatEffects` say
  it of the operations of the two systems, in terms of names, friendships, participants and mail.
- **Bytes.** `Codec`, `Wire`, `Framing` and `Client` take the packets to the wire and back, `RequestPackets` does so for
  the clients' requests, `WireLayout` writes every packet out byte by byte, `PacketSizes` counts them,
  and `FittingRuns.EveryClientUnderstands` joins both ends for every run.

What a run needs from outside, and nothing else: an account is logged in once at a time (README.md:35 of the
repository lists the opposite as a known issue); times do not go back, and nothing happens after a fault; nicknames are unique, ids are not 0,
friendships are stored once, irreflexive and with the smaller id first (`Database.Sound`, for the tables at the
start only); database calls are atomic and succeed, except the deletion of a character that friendships still
reference and the creation of a taken nickname, which throw. `LobbyRuns` and `FittingRuns` also ask that the tables at
the start keep the limits of the lobby.

Where the code and its texts disagree, the model follows the code:

- `server/mmocore/ut/leave_chat_tests.cpp:62-74` expects the leaver to be told that he left; the code erases him
  before it tells the others, so he is not told.
- Sending a live friend request again withdraws it (`pending_friend_requests.cpp:51-70`), although the answer and
  the client's text say that the previous one still waits; see `PendingRequests.ResendWithdraws`.
- The timed buffer is a map with a time to live of 20 seconds only under a punctual timer; the front generation is
  not checked for age. `PendingRequests.ExactForPunctualTimersOnly` says exactly when the two agree, and
  `PendingRequests.TimedRefinement` what holds for a late timer.
- A packet without an opcode is an uncaught exception in the preauth state only; `ServerRuns.StepIsSafe` shows that
  among the faults that the model counts (asserts on who is registered, exceptions that leave the loop, null or
  destroyed states, overwritten transitions) this is the only one that any event can cause in a reachable state.
- The serializer writes without a bound (`binary_serializer.hpp:33-51`) into 2048 bytes. Not every request keeps it
  there: `PacketSizes.LongNickOverruns` and `PacketSizes.LongRoomOverruns` give two that fit the buffer themselves and
  cause packets that do not. `PacketSizes.RequestFitsExactly` and `PacketSizes.BroadcastFitsExactly` say exactly
  which events are safe, and `FittingRuns.OverrunsExactly` lifts them to runs.
- A skip moves the cursor unchecked (`binary_deserializer.hpp:7-12`), and the guard adds with wrap-around, so reads
  do touch bytes outside the data once a skip is long enough; `Codec.LongSkipGoesOutside` is the input and
  `Codec.ChainStaysInsideExactly` the exact condition. The server itself never skips.

## Model

| member | source | states |
|---|---|---|
| `ServerRuns.RunFaultsExactly` | server/mmocore/src/mmoclient.cpp:6-73 | A run of the server, from any sound tables, has one of the faults that the model counts (an assert of registrar, friends or chat on who is registered, an exception that leaves the loop, a null or destroyed state, an overwritten transition) if and only if it meets a packet without an opcode in a preauth state; otherwise the invariant holds at its end |
| `ServerRuns.StepIsSafe` | server/mmocore/src/mmoclient.cpp:6-73 | Every possible event keeps the invariant, and has one of the faults that the model counts if and only if it is a packet without an opcode for a preauth state |
| `ServerRuns.SingleContinuation` | server/mmocore/src/mmoclient.cpp:41-73 | In every reachable state an open session has exactly one continuation under way and was never closed; a closed one was closed once, with no state awaiting a transition; a database callback under way belongs to the lobby state that is there |
| `ServerRuns.NoSessionIsStuck` | server/mmocore/src/mmoclient.cpp:55-73 | Until a session is finalized, its continuation can run with some input and does so without a fault |
| `ServerRuns.AnyPacketCanArrive` | server/mmocore/src/lobby_state.cpp:23-39 | The model does not restrict clients: any bytes can arrive at a session that waits for a packet |
| `Admission.ClientGetsIntoLobby` | server/mmocore/src/preauth_state.cpp:28-55 | In every state that meets the invariant, a client that connects and sends a 64-byte key and a login that the validator takes for a free account is led, by this packet, the transition, the query and the callback, into a lobby of that account that waits for a packet; it was sent good keys and then exactly the characters of the account |
| `Admission.HelloAdmits` | server/mmocore/src/preauth_state.cpp:45-55 | A hello that begins with a key of 64 bytes and a login, taken by the validator: exactly good keys is sent, the session stays open, and exactly the transition to an empty lobby of that account is under way |
| `Admission.HelloRefuses` | server/mmocore/src/preauth_state.cpp:57-63 | Not taken: exactly bad keys is sent and the session is closed |
| `Admission.BadHelloCloses` | server/mmocore/src/preauth_state.cpp:40-69 | A key of any other length, or a hello that breaks off: closed with nothing sent |
| `Admission.UnknownHelloCloses` | server/mmocore/src/preauth_state.cpp:71-76 | Any other opcode: exactly bad keys is sent and the session is closed |
| `LobbyEffects.CreationExactly` | server/mmocore/src/c2s/request_character_create.cpp:21-57 | In every reachable state a creation request is answered by the new character if and only if the account owns less than five characters in the database, the name has 1 to 20 bytes, all of them digits and letters, and no character has it |
| `LobbyEffects.CreationCreates` | server/mmocore/src/c2s/request_character_create.cpp:54-56 | Then account and list have exactly one character more, with the next id and the name, no other account or friendship changes, and exactly character_created is sent |
| `LobbyEffects.CreationRefused` | server/mmocore/src/c2s/request_character_create.cpp:25-53 | Otherwise tables and list stay, and the one packet sent carries the reason of the first of these checks that fails: count, length, bytes, database |
| `LobbyEffects.DeletionDeletes` | server/mmocore/src/c2s/request_character_delete.cpp:33-37 | Deleting a listed character without friends takes exactly it out of account and list, and sends the list that is left |
| `LobbyEffects.DeletionRefused` | server/mmocore/src/c2s/request_character_delete.cpp:26-33 | A name that is not listed, or that of a character with friends, closes the session and deletes nothing |
| `LobbyEffects.SelectionEnters` | server/mmocore/src/c2s/request_character_select.cpp:43-47 | Selecting a listed character puts exactly this one into the world; the client is sent its name and then exactly what the login mails; the transition into the world is under way |
| `LobbyEffects.SelectionRefused` | server/mmocore/src/c2s/request_character_select.cpp:35-41 | Selecting a name that is not listed closes the session with nothing sent |
| `LobbyEffects.SelectedArrives` | server/mmocore/src/mmoclient.cpp:62-72 | The transition then makes it a session in the world that waits for a packet, and does nothing else |
| `LobbyEffects.LoggingOffCloses` | server/mmocore/src/lobby_state.cpp:23-39 | Logging off, and a packet that breaks off, close the session with nothing sent |
| `RequestEffects.MessageArrives` | server/mmocore/src/chat_system/chat_system.cpp:112-129 | End to end: the packet of a chat message makes the server send it to the clients of exactly the participants, if the sender is one of them, and nothing to anybody else |
| `RequestEffects.WhisperArrives` | server/mmocore/src/chat_system/chat_system.cpp:131-143 | End to end: the packet of a whisper reaches the client of exactly the user of that name, unless he is the sender |
| `RequestEffects.JoinArrives` | server/mmocore/src/chat_system/chat_system.cpp:70-91 | End to end: the packet of a join makes its user the last of the participants, and the clients of exactly the participants are told |
| `RequestEffects.LeaveArrives` | server/mmocore/src/chat_system/chat_system.cpp:93-110 | End to end: the packet of a leave takes its user out, the others stay in their order, and exactly their clients are told; an empty room is gone |
| `RequestEffects.RemovalArrives` | server/mmocore/src/friend_system/friend_system.cpp:118-153 | End to end: the packet of a removal ends the friendship on both sides, and the clients of the two are told |
| `RequestEffects.FriendAddArrives` | server/mmocore/src/friend_system/friend_system.cpp:55-116 | End to end: the packet of a friend request is the request of the friend system, and whatever this mails reaches the clients |
| `RequestEffects.LoggingOffReturns` | server/mmocore/src/c2s/log_off_to_lobby.cpp:11-21 | Logging off to the lobby sends nothing and leaves exactly the transition to a new lobby of the account under way |
| `RequestEffects.BadRequestCloses` | server/mmocore/src/ingame_state.cpp:26-42 | A packet without an opcode, or a request that breaks off, closes the session with nothing sent |
| `RequestEffects.BroadcastArrives` | server/mmocore/src/chat_system/chat_system.cpp:25-41 | The timer sends the client of every user one census for every room that the user is in, and changes nothing else |
| `RequestEffects.TwoCleanupsForget` | server/mmocore/src/friend_system/pending_friend_requests.cpp:3-11 | After two cleanups no request that was there before the first one waits any more |
| `Departures.TransitionReturns` | server/mmocore/src/mmoclient.cpp:62-72 | The transition out of the world: the user is out of it, his client is sent exactly moved_to_lobby, and the lobby that waited asks for its list |
| `Departures.FinalizationEnds` | server/mmocore/src/mmoclient.cpp:41-53 | The finalization of a session in the world: the user is out of it, nothing is sent to him, and nothing is under way any more |
| `ServerRuns.ClientIsInStep` | client/commandline_client.cpp:37-92 | The packets sent to any session follow the phases of the client in every run, whatever other users do, and an open session and its client are in the same phase |
| `ServerRuns.ClientUnderstands` | client/commandline_client.cpp:37-240 | End to end in every run: the client takes exactly the sent packets off the byte stream and decodes each as what was sent, given that they fit the buffer; FittingRuns.EveryClientUnderstands removes that condition |
| `FittingRuns.EveryClientUnderstands` | client/commandline_client.cpp:37-240 | End to end from what the clients send alone: in every run whose events keep their bounds, every client decodes exactly what was sent to it |
| `FittingRuns.OverrunsExactly` | server/utils/inc/binary_serializer.hpp:33-51 | In a run of the server no packet ever overruns the 2048 bytes that it is written to if and only if every event of the run keeps its bounds: those of RequestFits for each request to the world, and for the timer that the census of every room fits; while the ids are unsigned |
| `FittingRuns.StepFitsExactly` | server/utils/inc/binary_serializer.hpp:33-51 | The same for one event in any state that such a run reaches |
| `FittingRuns.NothingOverruns` | server/utils/inc/binary_serializer.hpp:33-51 | So in such a run every packet that was sent, the lists, logins, logouts and the census included, fits the buffer and its numbers their types |
| `FittingRuns.ModestRunsKeepBounds` | server/utils/inc/binary_serializer.hpp:33-51 | Bounds on the strings alone, in the packets that arrive, are enough for every run: room to join at most 984, room and message at most 2015, whisper at most 2019, friend name at most 2039 bytes |
| `PacketSizes.RequestFitsExactly` | server/mmocore/src/ingame_state_recv_packet_factory.cpp:20-44 | All packets that a request to the world causes fit the buffer if and only if its strings meet the bounds of RequestFits; both directions, for every request in every state |
| `PacketSizes.PacketSizeIsExact` | server/utils/inc/binary_serializer.hpp:33-51 | The size of every packet from the lengths of its strings |
| `PacketSizes.RoomLimitIsExact` | server/mmocore/src/chat_system/chat_system.cpp:25-41 | A room name has at most 984 bytes if and only if its census fits for every unsigned number of participants |
| `PacketSizes.BroadcastFitsExactly` | server/mmocore/src/chat_system/chat_system.cpp:25-41 | All packets of the periodic broadcast fit if and only if the census of every room, with its number of participants, does |
| `PacketSizes.LongNickOverruns` | server/mmocore/src/friend_system/friend_system.cpp:65-70 | False without the bounds: a friend request that fits the buffer, to an offline name of 2040 to 2043 bytes, is answered by a packet of up to 2052 bytes |
| `PacketSizes.LongRoomOverruns` | server/mmocore/src/chat_system/chat_system.cpp:25-41 | False without the bounds: a join that fits, with a room name of 990 to 2019 bytes, leaves a room whose census exceeds the buffer |
| `WorldRuns.PlayAll` | server/mmocore/src/chat_system/chat_system.cpp:4-143 | On the objects, for every sequence of logins, logouts, requests and timers at times that do not go back: no assert of the three systems fails, and at the end the chat relation is two-way, rooms are filed under their names, none is empty and no set holds a destroyed room |
| `WorldRuns.PlayFromStart` | server/mmocore/src/chat_system/chat_system.cpp:43-49 | The same for every such sequence from an empty world on any sound tables |
| `WorldRuns.PlayOne` | server/mmocore/src/chat_system/chat_system.cpp:4-143 | Each of these keeps the objects intact and in agreement, and every live room was alive before or is new |
| `ChatSystem.ValidIsTwoWay` | server/mmocore/src/chat_system/chat_system.cpp:4-18 | What the chat keeps means: a user is in the participants of a live room if and only if that room is in his own set; every key is its room's name; no room is empty; no set holds a destroyed room |
| `ServerRuns.WorldAgreement` | server/mmocore/src/ingame_state.cpp:3-26 | In every reachable state the users in chat, in the friend system and in both indexes of the registrar are the same, and are the users of the sessions |
| `ServerRuns.CacheIsDatabase` | server/mmocore/src/friend_system/friend_system.cpp:19-23 | In every reachable state the cached friend ids of a user are the database friends of that user, irreflexive, and symmetric between two users |
| `ServerRuns.FriendNotificationsReplay` | server/mmocore/src/friend_system/friend_system.cpp:24-37 | In every run the friend packets a client got since it selected its character replay to exactly the names of his friends who are online now |
| `ServerRuns.ChatViewsReplay` | server/mmocore/src/chat_system/chat_system.cpp:70-110 | In every run the join and left packets of a room replay to the client himself and those who joined after him: of two participants the later is in the earlier one's view and not the reverse |
| `ServerRuns.FriendshipAndRequestsExclude` | server/mmocore/src/friend_system/friend_system.cpp:83-115 | In every reachable state two friends have no live request between them, no pair has live requests both ways, and no friendship has two rows |
| `ServerRuns.LobbyListIsDatabase` | server/mmocore/src/lobby_state.cpp:41-55 | Whenever a lobby waits for a packet its list holds exactly the account's characters in the database, each once; nicknames are unique |
| `LobbyRuns.LimitsHold` | server/mmocore/src/c2s/request_character_create.cpp:25-57 | If it was so at the start, in every run no account has more than 5 characters and every name is 1 to 20 letters and digits |
| `LobbyRuns.LobbyListFits` | server/mmocore/src/s2c/character_list.cpp:5-14 | So the list of a waiting lobby has at most 5 entries and its packet fits the 2048 bytes |
| `ServerRuns.TransitionIsSafe` | server/mmocore/src/mmoclient.cpp:55-73 | Running a scheduled transition finds an old state whose asserts hold and a state to start, and keeps the invariant |
| `ServerRuns.LeavingIsSafe` | server/mmocore/src/ingame_state.cpp:20-24 | Destroying an ingame state, by a transition or a finalization, meets all asserts of the logout, keeps every other session good and takes exactly this user out of the world |
| `ServerRuns.DepartedIsGood` | server/mmocore/inc/ingame_state.hpp:13-32 | What a session sends while its ingame state is destroyed ends with moved_to_lobby in the client's ingame phase; a closed session sends nothing |
| `ServerRuns.FinalizationIsSafe` | server/mmocore/src/mmoclient.cpp:41-53 | The finalization destroys whatever state there is without a fault and leaves a closed session with nothing under way |
| `ServerRuns.CompletionIsSafe` | server/mmocore/src/lobby_state.cpp:47-54 | The database callback finds the lobby state that asked, replaces its list and re-arms the receive; the invariant is kept |
| `ServerRuns.QueryIsSafe` | server/mmocore/inc/asynchronous_database_adapter.hpp:27-34 | Between query and callback the rows stay what the database holds for the account |
| `ServerRuns.TimersAreSafe` | server/mmocore/src/chat_system/chat_system.cpp:25-41 | The periodic broadcast keeps the invariant in any order of the rooms |
| `ServerRuns.ReceivingIsSafe` | server/mmocore/src/lobby_state.cpp:23-39 | Every packet and every broken connection, in every state of a session, keeps the invariant; only the empty hello faults |
| `PacketSafety.HelloIsSafe` | server/mmocore/src/preauth_state.cpp:28-77 | A hello to the preauth state either admits, refuses or closes and keeps the invariant; it faults exactly when the packet has no opcode |
| `PacketSafety.CloseIsSafe` | server/mmocore/src/mmoclient.cpp:41-53 | force_close from a handler, with or without a last packet, keeps the invariant, and the poll after it has no effect |
| `PacketSafety.ServedAgrees` | server/mmocore/src/ingame_state_recv_packet_factory.cpp:20-44 | For a user in the world every request meets the asserts of chat and friends and keeps the world in agreement |
| `PacketSafety.ServingIsSafe` | server/mmocore/src/ingame_state.cpp:26-42 | A packet to the ingame state never faults and keeps the invariant |
| `PacketSafety.EnteringIsSafe` | server/mmocore/src/c2s/request_character_select.cpp:27-48 | Selecting a listed character never fails an assert: the character cannot be in the world already; the invariant is kept |
| `PacketSafety.ChosenIsGood` | server/mmocore/src/c2s/request_character_select.cpp:43-47 | Telling the client first, then the packets of the login, then the transition: the client is ingame before the first world packet, and what it got since is what the world sent |
| `PacketSafety.CreatingIsSafe` | server/mmocore/src/c2s/request_character_create.cpp:21-57 | A creation request keeps list and database equal, nicknames unique and the invariant |
| `PacketSafety.DeletingIsSafe` | server/mmocore/src/c2s/request_character_delete.cpp:18-38 | A deletion request keeps list and database equal and the invariant; the deleted character is not in the world |
| `SessionInvariant.LobbyCharactersAreOffline` | server/mmocore/src/c2s/request_character_select.cpp:30-47 | A character of an account whose session is not in the world is not in the friend system |
| `SessionInvariant.OneSessionPerUser` | server/mmocore/inc/ingame_state.hpp:35-42 | A user of the world belongs to one session |
| `SessionInvariant.ForwardIsGood` | server/mmocore/src/chat_system/default_chat_backend.cpp:1-30 | What the world sends to a user reaches his session in its ingame phase and keeps log and session equal |
| `Worlds.EnterAgrees` | server/mmocore/src/ingame_state.cpp:3-18 | A login meets the asserts of chat, friends and registrar and keeps the whole world in agreement, for any order of the friends |
| `Worlds.LeaveAgrees` | server/mmocore/src/ingame_state.cpp:20-24 | A logout meets the asserts of all destructors and keeps the whole world in agreement, for any order of the rooms |
| `Worlds.LoginNests` | server/mmocore/inc/user_environment.hpp:35-41 | During a login registrar is within friends within chat; the newcomer appears in chat first and in the registrar last |
| `Worlds.LogoutNests` | server/mmocore/src/ingame_state.cpp:20-24 | During a logout they nest in the same way; the registrar forgets the user first and the chat last |
| `Worlds.CanEnterExactlyWhenOffline` | server/mmocore/inc/world_registrar.hpp:26-32 | The asserts of a login hold if and only if the character is not in the world yet |
| `Worlds.LoginTells` | server/mmocore/src/friend_system/friend_system.cpp:24-37 | Exactly what a login sends: friend_login to every friend who is online and nothing to others, and to the newcomer one greeting for each of them, in the order of the iteration |
| `Worlds.LogoutTells` | server/mmocore/src/ingame_state.cpp:20-24 | Exactly what a logout sends to another user: friend_leave if he is a friend, and then one user_left_chat for every shared room in the order of the loop |
| `Worlds.FriendAddAgrees` | server/mmocore/src/friend_system/friend_system.cpp:55-116 | A friend request keeps the world in agreement and meets the cross-component assert |
| `Worlds.FriendRemoveAgrees` | server/mmocore/src/friend_system/friend_system.cpp:118-153 | Removing a friend keeps the world in agreement |
| `Worlds.TimeAgrees` | server/mmocore/src/friend_system/pending_friend_requests.cpp:3-11 | The passage of time and a cleanup at any moment keep the world in agreement |
| `Worlds.ErasedAgrees` | server/mmocore/src/psql_facade.cpp:23-30 | Deleting a character that is offline and has no friendships keeps the world in agreement |
| `Worlds.CreatedAgrees` | server/mmocore/src/psql_facade.cpp:48-61 | Creating a character with a free name keeps the world in agreement |
| `GameWorlds.GameWorld.ConstructIngameState` | server/mmocore/src/ingame_state.cpp:3-18 | Constructing the members in order and registering last is the login of the state functions |
| `GameWorlds.GameWorld.DestroyIngameState` | server/mmocore/src/ingame_state.cpp:20-24 | Unregistering first and destroying the members in reverse order is the logout of the state functions |
| `IngameStates.AgreeingIsReady` | server/mmocore/src/ingame_state.cpp:26-42 | The agreement of the world is all that the objects ask for before they serve a request |
| `IngameStates.IngameState.constructor` | server/mmocore/inc/ingame_state.hpp:28-42 | The constructor is the login, for some order of the friends |
| `IngameStates.IngameState.HandleNetworkPacket` | server/mmocore/src/ingame_state.cpp:26-42 | A packet changes the world as the request says; a bad one closes, log off schedules the lobby, anything else polls again |
| `IngameStates.ExecuteAssociatedAction` | server/mmocore/src/ingame_state_recv_packet_factory.cpp:26-42 | Every request goes to the operation it names |
| `IngameStates.IngameState.Answer` | server/mmocore/src/c2s/log_off_to_lobby.cpp:11-21 | Logging off schedules a lobby of the same account and does not poll; an exception closes |
| `IngameStates.IngameState.Destroy` | server/mmocore/inc/ingame_state.hpp:13-32 | The user leaves the world as the logout says, for some order of his rooms; then, when all that the logout mails is sent, the session sends moved_to_lobby and nothing else |
| `IngameStates.RequestCharacterSelect` | server/mmocore/src/c2s/request_character_select.cpp:27-48 | An unknown name closes the session; for a listed one the client is told before the login mails anything, the character enters the world and the transition is scheduled |
| `Worlds.LeaveUndoesEnter` | server/mmocore/src/ingame_state.cpp:3-24 | A logout undoes a login: but for the mail the world is as it was |
| `Mmoclients.Mmoclient.constructor` | server/mmocore/src/mmoclient.cpp:32-39 | A started session is in the preauth state and waits for a packet |
| `Mmoclients.Mmoclient.ForceClose` | server/mmocore/src/mmoclient.cpp:41-53 | Replaces the socket, posts one finalization and nothing else |
| `Mmoclients.Mmoclient.ScheduleTransition` | server/mmocore/src/mmoclient.cpp:55-73 | Sets the status, keeps the new state waiting and posts one transition |
| `Mmoclients.Mmoclient.RunScheduledTransition` | server/mmocore/src/mmoclient.cpp:62-72 | The waiting state becomes current, polling is allowed again and the state is started |
| `Mmoclients.Mmoclient.StartState` | server/mmocore/src/lobby_state.cpp:41-55 | Preauth and ingame states receive; a lobby queries first and does not receive |
| `Mmoclients.Mmoclient.PollUnlessInTransition` | server/mmocore/src/lobby_state.cpp:30-32 | Polls again exactly when no transition is scheduled |
| `Mmoclients.PreauthState.HandleNetworkPacket` | server/mmocore/src/preauth_state.cpp:28-77 | The exception leaves the handler if and only if the packet is empty; unknown opcode, underflow or a key that is not 64 bytes, refusal, admission: exactly the answers and the transition of the state function |
| `IngameStates.HandleLobbyPacket` | server/mmocore/src/lobby_state.cpp:23-39 | Every packet to the lobby, selections with their poll included, has its effect on world, list, database and session; a bad packet closes |
| `StepRefinement.LobbySteps` | server/mmocore/src/lobby_state.cpp:23-39 | Every outcome of the handler of the lobby object is the step of the server on that packet, for some order of the friends |
| `StepRefinement.IngameSteps` | server/mmocore/src/ingame_state.cpp:26-42 | The outcome of the handler of the ingame object, after what the world mailed to the user, is the step of the server on that packet |
| `StepRefinement.DestructionSteps` | server/mmocore/inc/ingame_state.hpp:13-32 | The destruction of an ingame state is the step of the server, with moved_to_lobby after what the logout mailed to the user |
| `StepRefinement.HelloSteps` | server/mmocore/src/preauth_state.cpp:28-77 | The outcome of the handler of the preauth object is the step of the server |
| `Mmoclients.LobbyState.ServeOther` | server/mmocore/src/lobby_state.cpp:23-39 | Every request but a selection has its effect on list, database and session, then the poll |
| `Mmoclients.LobbyState.RequestCharacterCreate` | server/mmocore/src/c2s/request_character_create.cpp:21-57 | Limit, length, alphanumeric and uniqueness checks in this order, then list and database together |
| `Mmoclients.LobbyState.RequestCharacterDelete` | server/mmocore/src/c2s/request_character_delete.cpp:18-38 | Unknown name or a referenced character closes and deletes nothing; otherwise both list and database lose it and the list is sent |
| `Mmoclients.LobbyState.HasOtherThanAlnum` | server/mmocore/src/c2s/request_character_create.cpp:39-40 | True if and only if some byte is neither letter nor digit |
| `Mmoclients.FindIf` | server/mmocore/src/c2s/request_character_select.cpp:30-33 | The first position with the name, or the end |
| `Mmoclients.LobbyState.OnLobbyChars` | server/mmocore/src/lobby_state.cpp:47-54 | Replaces the list, sends it and re-arms |
| `Mmoclients.AsynchronousDatabaseAdapter.RunGetLobbyChars` | server/mmocore/inc/asynchronous_database_adapter.hpp:27-34 | Queries the account's rows, each once in any order, and queues the callback with them |
| `RecvPacketFactories.ConstructLobbyRequest` | server/mmocore/src/lobby_state_recv_packet_factory.cpp:30-51 | The request a packet decodes to, the null request for unknown opcodes, the exception for underflow |
| `RecvPacketFactories.ConstructIngameRequest` | server/mmocore/src/ingame_state_recv_packet_factory.cpp:20-44 | The request a packet decodes to, the null request for unknown opcodes, the exception for underflow |
| `RequestPackets.IngameReadsExactly` | client/commandline_client.cpp:290-349 | The server reads a request to the world exactly from the packets that begin with it as the client writes it: the opcode of ingame_state_protocol.hpp and then its strings, whatever follows |
| `RequestPackets.LobbyReadsExactly` | client/commandline_client.cpp:361-398 | The same for the requests to the lobby |
| `RequestPackets.HelloReadsExactly` | client/commandline_client.cpp:446-449 | The same for the hello, if and only if the key has 64 bytes; a key of another length is a bad hello |
| `RequestPackets.RequestRoundTrip` | client/commandline_client.cpp:290-349 | So reading what the client wrote gives the request back, whatever follows in the packet |
| `RequestPackets.OtherOpcodes` | server/mmocore/src/ingame_state_recv_packet_factory.cpp:20-44 | Exactly the packets with another opcode give the null request, or the unknown hello; a packet without an opcode is a bad one |
| `RequestPackets.CutIngameIsBad` | server/utils/inc/binary_deserializer.hpp:49-80 | A request to the world that breaks off anywhere inside of what is read is a bad one |
| `RequestPackets.CutLobbyIsBad` | server/utils/inc/binary_deserializer.hpp:49-80 | The same for the lobby |
| `RequestPackets.CutHelloIsBad` | server/utils/inc/binary_deserializer.hpp:49-80 | The same for a hello that has its opcode |
| `Friends.RegisterIsConsistent` | server/mmocore/src/friend_system/friend_system.cpp:14-38 | A login keeps cache and database equal, replays exact and requests exclusive, and every online friend is found in the registrar |
| `Friends.UnregisterIsConsistent` | server/mmocore/src/friend_system/friend_system.cpp:40-53 | A logout keeps all of it |
| `Friends.RequestAddIsConsistent` | server/mmocore/src/friend_system/friend_system.cpp:55-116 | A friend request keeps all of it, in every branch, and the assert on the found player holds |
| `FriendEffects.AddOffline` | server/mmocore/src/friend_system/friend_system.cpp:65-72 | A request to a name that no user in the world has: exactly player_not_online to me, and nothing else happens |
| `FriendEffects.AddMyself` | server/mmocore/src/friend_system/friend_system.cpp:74-79 | A request to my own name: exactly cannot_invite_self to me, and nothing else happens |
| `FriendEffects.AddFriend` | server/mmocore/src/friend_system/friend_system.cpp:83-88 | A request to a friend who is online: exactly already_friends to me, and nothing else happens |
| `FriendEffects.AddAsks` | server/mmocore/src/friend_system/friend_system.cpp:100-103 | Nothing waits between us: he is sent the request and I the result, the request is live from now on, and nothing else happens |
| `FriendEffects.AddAgain` | server/mmocore/src/friend_system/friend_system.cpp:95-99 | My own request is still live: exactly I am told that it waits, it is withdrawn, and nothing else happens |
| `FriendEffects.AddAnswers` | server/mmocore/src/friend_system/friend_system.cpp:104-112 | His request is live: both caches and the database have the friendship, exactly the two of us are told, no request between us is left, and no other friendship or request changes |
| `Friends.MatchIsConsistent` | server/mmocore/src/friend_system/friend_system.cpp:104-112 | A match makes the friendship on both sides and in the database, tells both, and ends the request |
| `Friends.MatchIsExclusive` | server/mmocore/src/friend_system/friend_system.cpp:104-112 | After a match no request is live between the two in either direction |
| `Friends.ProcessIsExclusive` | server/mmocore/src/friend_system/friend_system.cpp:90-103 | Without a match no pair gets live requests in both directions |
| `Friends.NewRowIsSound` | server/mmocore/src/psql_facade.cpp:100-110 | A match never writes a duplicate row, although the schema has no unique constraint |
| `Friends.RequestRemoveIsConsistent` | server/mmocore/src/friend_system/friend_system.cpp:118-153 | Ending a friendship keeps all of it, also when the friend is offline |
| `FriendEffects.RemovalRemoves` | server/mmocore/src/friend_system/friend_system.cpp:143-152 | Removing a friend: neither of the two has the other in the database or the cache; exactly I and, if and only if he is online, he are told; no other list, row or request changes |
| `FriendEffects.RemovalRefused` | server/mmocore/src/friend_system/friend_system.cpp:130-142 | If no friend of mine has that name, exactly I am told so, and nothing else happens |
| `Friends.TimeIsConsistent` | server/mmocore/src/friend_system/pending_friend_requests.cpp:3-11 | Time and cleanups keep all of it |
| `Friends.CacheIsSymmetric` | server/mmocore/src/friend_system/friend_system.cpp:137-152 | Between two users in the world the caches are symmetric and irreflexive |
| `Friends.CreatedIsConsistent` | server/mmocore/src/psql_facade.cpp:48-61 | A new character changes nothing for the users in the world |
| `Friends.ErasedIsConsistent` | server/mmocore/src/psql_facade.cpp:23-30 | A deleted character changes nothing for the users in the world |
| `FriendSystem.FriendSystem.RegisterMe` | server/mmocore/src/friend_system/friend_system.cpp:14-38 | The loop greets exactly the registered friends, each once and me before him, and the new state is the one of the function |
| `FriendSystem.FriendSystem.UnregisterMe` | server/mmocore/src/friend_system/friend_system.cpp:40-53 | The loop tells exactly the registered friends, each once, and then I am erased |
| `FriendSystem.FriendSystem.ProcessReqFriendAdd` | server/mmocore/src/friend_system/friend_system.cpp:55-116 | The new state of cache, database, buffers and mail is the one of the function, in every branch |
| `FriendSystem.FriendSystem.ProcessReqFriendRemove` | server/mmocore/src/friend_system/friend_system.cpp:118-153 | The new state of cache, database and mail is the one of the function, in every branch |
| `Friends.MutualRequestsMakeFriends` | server/mmocore/src/friend_system/friend_system.cpp:90-112 | If one asks and the other asks back within 20 seconds, both caches and the database have the friendship and each is told so, whatever happens in between: other requests and cleanups at any permitted times, as long as the two stay online and leave their request alone |
| `PendingRequests.StaysLive` | server/mmocore/src/friend_system/pending_friend_requests.cpp:3-70 | Whatever others ask and whenever cleanups come, a waiting request can be answered until it is 20 seconds old |
| `Friends.BreakUndoesBefriend` | server/mmocore/src/friend_system/friend_system.cpp:104-152 | Ending a friendship undoes making it: caches, database and buffers are as before |
| `PendingRequests.TimedRefinement` | server/mmocore/src/friend_system/pending_friend_requests.cpp:20-75 | For every run with cleanups 20 s to gap apart each answer is one that a map with a time to live in that window gives |
| `PendingRequests.LiveWindow` | server/mmocore/src/friend_system/pending_friend_requests.cpp:26-70 | After any run an unconsumed request is live at every age below 20 s and dead at every age of gap or more |
| `PendingRequests.PunctualRefinement` | server/mmocore/src/friend_system/pending_friend_requests.cpp:3-11 | With a punctual timer every answer of every run is that of one map with a 20 s time to live |
| `PendingRequests.ExactForPunctualTimersOnly` | server/mmocore/src/friend_system/pending_friend_requests.cpp:29-34 | The exact refinement holds for all runs if and only if the timer is punctual |
| `PendingRequests.FreshIsYoung` | server/mmocore/src/friend_system/pending_friend_requests.cpp:40-42 | The truncating cast to seconds moves no request across the deadline |
| `PendingRequests.ResendWithdraws` | server/mmocore/src/friend_system/pending_friend_requests.cpp:51-70 | A request that is sent again while it is live is dead from then on, whatever others ask and whenever cleanups come, until it is sent once more |
| `PendingRequests.StaysDead` | server/mmocore/src/friend_system/pending_friend_requests.cpp:3-75 | In every run in which it is not sent, a dead request stays dead |
| `PendingRequests.PendingFriendRequests.PeriodicCleanup` | server/mmocore/src/friend_system/pending_friend_requests.cpp:3-11 | Front becomes back and the old back is gone |
| `PendingRequests.PendingFriendRequests.ProcessAddFriendRequest` | server/mmocore/src/friend_system/pending_friend_requests.cpp:20-75 | Answer and new buffers are those of the function: reverse before same, front before back, age checked in the back only |
| `Chats.JoinIsConsistent` | server/mmocore/src/chat_system/chat_system.cpp:70-91 | Joining keeps rooms non-empty and without duplicates and every client's view exact |
| `ChatEffects.JoinJoins` | server/mmocore/src/chat_system/chat_system.cpp:70-91 | Whoever joins is the last of the participants, exactly the participants are told, and no other room changes |
| `ChatEffects.LeaveLeaves` | server/mmocore/src/chat_system/chat_system.cpp:4-23 | Whoever leaves is taken out, the others stay in their order and exactly they are told; the room is gone if nobody is left |
| `Chats.LeaveIsConsistent` | server/mmocore/src/chat_system/chat_system.cpp:93-110 | Leaving keeps all of it |
| `Chats.UnregisterIsConsistent` | server/mmocore/src/chat_system/chat_system.cpp:59-68 | Logging out keeps all of it, for any order of the rooms |
| `Chats.LogoutRooms` | server/mmocore/src/chat_system/chat_system.cpp:59-68 | For any set of joined rooms and any order: the user is in no room, exactly the rooms he leaves empty are destroyed, no other membership changes |
| `Chats.LogoutMail` | server/mmocore/src/chat_system/chat_system.cpp:20-22 | Every other user gets the notices of the shared rooms and nothing else; the leaver gets nothing |
| `Chats.OneFarewellPerRoom` | server/mmocore/src/chat_system/chat_system.cpp:20-22 | Exactly one user_left_chat for every shared room |
| `Chats.SinceIsJoinOrder` | server/mmocore/src/chat_system/chat_system.cpp:84-87 | A later participant is in the view of an earlier one and not the reverse |
| `Chats.MessageIsConsistent` | server/mmocore/src/chat_system/chat_system.cpp:112-143 | Messages change nobody's view of a room |
| `Chats.PeriodicBroadcastIsConsistent` | server/mmocore/src/chat_system/chat_system.cpp:25-41 | The periodic broadcast changes nobody's view and no room |
| `ChatSystem.LinkedLeave` | server/mmocore/src/chat_system/chat_system.cpp:4-14 | The relation with the left pairs survives leaving on the side of the room only |
| `ChatSystem.LinkedUnregister` | server/mmocore/src/chat_system/chat_system.cpp:66-67 | When all pairs of a user are left, erasing him restores the two-way relation |
| `ChatSystem.NextRoom` | server/mmocore/src/chat_system/chat_system.cpp:64-65 | The next room of the logout loop is alive and lists the user, although rooms of his may be destroyed already |
| `ChatSystem.ChatSystem.JoinChatroom` | server/mmocore/src/chat_system/chat_system.cpp:70-91 | Two-way relation kept; the room is found or created; the new state is the one of the function |
| `ChatSystem.ChatSystem.LeaveChatroom` | server/mmocore/src/chat_system/chat_system.cpp:93-110 | Two-way relation kept; the new state is the one of the function |
| `ChatSystem.ChatSystem.UnregisterFromChatroom` | server/mmocore/src/chat_system/chat_system.cpp:4-23 | Leaves on the side of the room, destroys it if empty, otherwise tells the rest; the user's own set is untouched |
| `ChatSystem.ChatSystem.LeaveAllRooms` | server/mmocore/src/chat_system/chat_system.cpp:63-65 | The loop over the user's own set leaves every room once while the relation is broken for him |
| `ChatSystem.ChatSystem.UnregisterMe` | server/mmocore/src/chat_system/chat_system.cpp:59-68 | The logout on objects is the one of the function for the order in which the loop ran, and the two-way relation holds again |
| `ChatSystem.ChatSystem.BroadcastTo` | server/mmocore/src/chat_system/chat_system.cpp:112-129 | Every participant hears a participant, an outsider is ignored |
| `ChatSystem.ChatSystem.WhisperTo` | server/mmocore/src/chat_system/chat_system.cpp:131-143 | The recipient hears it, unless he is offline or the sender |
| `ChatSystem.ChatSystem.PeriodicBroadcastTo` | server/mmocore/src/chat_system/chat_system.cpp:25-41 | Every room hears its own census once, in some order |
| `Chats.MessageReaches` | server/mmocore/src/chat_system/chat_system.cpp:112-129 | A message of a participant reaches exactly the participants, the sender included; an outsider's reaches nobody |
| `Chats.WhisperReaches` | server/mmocore/src/chat_system/chat_system.cpp:131-143 | A whisper reaches exactly the user of that name, unless he is the sender |
| `Chats.BroadcastReaches` | server/mmocore/src/chat_system/chat_system.cpp:25-38 | The timer sends every user one census for every room he is in, and nothing else |
| `ChatEffects.CensusCounts` | server/mmocore/src/chat_system/chat_system.cpp:30-36 | The census names the room and says, in decimal digits without a leading zero, how many participants it has |
| `Chats.LeaveUndoesJoin` | server/mmocore/src/chat_system/chat_system.cpp:70-110 | Leaving undoes joining: the rooms are as before, and a room that was created is destroyed |
| `WorldRegistrar.IndexesAgree` | server/mmocore/inc/world_registrar.hpp:11-13 | Found by name if and only if found by id |
| `WorldRegistrar.AddedIsIndexed` | server/mmocore/inc/world_registrar.hpp:26-32 | Registering keeps both indexes equal, and unregistering undoes it |
| `WorldRegistrar.DroppedIsIndexed` | server/mmocore/inc/world_registrar.hpp:34-40 | Unregistering keeps both indexes equal |
| `Database.CanonicalTableRefinesAdjacency` | server/mmocore/src/psql_facade.cpp:83-122 | In every sequence of make, remove and get calls one canonical row per pair answers like a two-sided adjacency map |
| `Database.LookupFindsRow` | server/mmocore/src/psql_facade.cpp:83-98 | The two-column lookup finds a friend exactly when the canonical row is there |
| `Database.LookupAfterMake` | server/mmocore/src/psql_facade.cpp:100-110 | After make_friends each of the two has the other, and nobody else changes |
| `Database.LookupAfterRemove` | server/mmocore/src/psql_facade.cpp:112-122 | After remove_friends neither has the other, and nobody else changes |
| `Database.RemovalNeedsCanonicalRows` | server/fill_test_data.sql:43-44 | Removal ends every friendship if and only if every row has the smaller id first |
| `Database.UidOfIsExact` | server/mmocore/src/psql_facade.cpp:38-46 | The lookup by name answers a real id exactly for the character of that name |
| `Database.TakenHasUid` | server/mmocore/src/psql_facade.cpp:32-36 | A nickname is taken exactly when the lookup is not 0 |
| `Database.CreatedIsSound` | server/mmocore/src/psql_facade.cpp:48-61 | Creation keeps the tables sound, adds one character to its account and changes no other account |
| `Database.ErasedIsSound` | server/mmocore/src/psql_facade.cpp:23-30 | Deletion keeps the tables sound, takes one character from its account and changes no other account |
| `Database.PsqlFacade.GetFriendsOf` | server/mmocore/src/psql_facade.cpp:83-98 | The union of both columns |
| `Database.PsqlFacade.MakeFriends` | server/mmocore/src/psql_facade.cpp:100-110 | One more canonical row |
| `Database.PsqlFacade.RemoveFriends` | server/mmocore/src/psql_facade.cpp:112-122 | No canonical row of the pair is left |
| `Database.PsqlFacade.CharNameToUid` | server/mmocore/src/psql_facade.cpp:38-46 | The id of the name, or 0 |
| `Database.PsqlFacade.IsNicknameAlreadyTaken` | server/mmocore/src/psql_facade.cpp:32-36 | True if and only if some character has the name |
| `Database.PsqlFacade.CreateCharacter` | server/mmocore/src/psql_facade.cpp:48-61 | A new row with the next id, or, if the nickname is taken, no row and an exception, with the id used up |
| `Database.PsqlFacade.EraseCharacter` | server/mmocore/src/psql_facade.cpp:23-30 | Erased unless a friendship references it, then nothing happens and the query throws |
| `Database.PsqlFacade.GetLobbyChars` | server/mmocore/src/psql_facade.cpp:11-21 | Each character of the account once, in some order |
| `Codec.RoundTrip` | server/utils/inc/binary_deserializer.hpp:49-80 | Decoding the encoding of any list of fields gives the list back with the cursor at its size, whatever follows |
| `Codec.PrefixUnderflows` | server/utils/inc/binary_deserializer.hpp:49-61 | Decoding any strict prefix raises underflow |
| `Codec.DecodedIsEncoding` | server/utils/inc/binary_deserializer.hpp:49-80 | Whatever decodes is the encoding of what it decodes to |
| `Codec.RawRoundTrip` | server/utils/inc/binary_serializer.hpp:33-41 | A plain value comes back from its raw bytes |
| `Codec.RawIsLittleEndian` | server/utils/inc/binary_serializer.hpp:33-41 | The bytes of a plain value come from the lowest to the highest |
| `Codec.ValueRoundTrip` | server/utils/inc/binary_deserializer.hpp:71-80 | Raw bytes come back from their value |
| `Codec.GuardIsExact` | server/utils/inc/binary_deserializer.hpp:75-76 | The underflow guard lets through exactly the reads inside the size if and only if the sum of cursor and need does not wrap, or wraps to something that is refused |
| `Codec.ChainStaysInsideExactly` | server/utils/inc/binary_deserializer.hpp:7-12 | A chain of reads and skips never touches a byte at or past the size if and only if every guard that it meets is exact at its cursor; and then it gives what it means and throws exactly when that underflows |
| `Codec.BinaryDeserializer.Chain` | server/utils/inc/binary_deserializer.hpp:7-80 | The object runs such a chain, read by read and skip by skip, to the result that it means |
| `Codec.ShortSkipsStayInside` | server/utils/inc/binary_deserializer.hpp:49-80 | So every chain on a packet whose skips together stay far from the end of size_t is safe |
| `Codec.LongSkipGoesOutside` | server/utils/inc/binary_deserializer.hpp:7-12 | False for long skips: after a skip by the largest size_t a read of four bytes passes the guard and starts outside the data |
| `Codec.BinarySerializer.WritePlain` | server/utils/inc/binary_serializer.hpp:33-41 | Appends the raw bytes and advances the cursor by their width |
| `Codec.BinarySerializer.WriteString` | server/utils/inc/binary_serializer.hpp:43-51 | Appends size and text and advances the cursor |
| `Codec.BinaryDeserializer.Plain` | server/utils/inc/binary_deserializer.hpp:71-80 | Reads a value inside the size or throws; bytes at or past the size do not matter |
| `Codec.BinaryDeserializer.String` | server/utils/inc/binary_deserializer.hpp:49-61 | Reads a counted string inside the size or throws, with the cursor where the exception leaves it |
| `Codec.BinaryDeserializer.Skip` | server/utils/inc/binary_deserializer.hpp:7-12 | Moves the cursor unchecked, with the wrap-around of its type |
| `Wire.CharactersRoundTrip` | client/commandline_client.cpp:72-84 | The counted list decodes to itself with the client's loop |
| `Wire.PacketRoundTrip` | client/commandline_client.cpp:37-275 | Every packet that fits the buffer decodes to itself in the phase it was encoded for |
| `WireLayout.BytesAreLaidOut` | server/mmocore/inc/ingame_state_protocol.hpp:6-27 | Every packet byte by byte: the opcode as its protocol header numbers it, codes and counts in four bytes from the lowest, the length of a list in eight, and every string behind its length |
| `WireLayout.FrameIsLaidOut` | server/net_core/src/boost_socket.cpp:58-64 | Every frame is the size of its packet in four bytes, and the packet |
| `Wire.CharacterListFits` | server/mmocore/src/s2c/character_list.cpp:5-14 | Five characters with names of at most 20 bytes take at most 149 bytes |
| `Wire.WriteCharacterList` | server/mmocore/src/s2c/character_list.cpp:5-14 | The loop writes exactly the encoding of the list |
| `Framing.FramingRoundTrip` | server/net_core/src/boost_socket.cpp:58-64 | Packets of at most 2048 bytes come out of the stream in order, with whatever follows left to read |
| `Framing.DeliversExactlyWhatFits` | server/net_core/src/boost_socket.cpp:17-22 | The stream delivers all packets and is consumed if and only if each fits the buffer |
| `Framing.CutsDoNotMatter` | server/net_core/src/boost_socket.cpp:4-44 | However the network cuts the stream, the packets received are the same |
| `Framing.AnyCutDeliversAPrefix` | server/net_core/src/boost_socket.cpp:4-44 | Any beginning of a stream delivers a beginning of the packets and no error |
| `Framing.ReceivedIsSent` | server/net_core/src/boost_socket.cpp:4-44 | The bytes are the frames of what was delivered and the rest: nothing is invented or lost |
| `Framing.BoostSocket.AsyncRecv` | server/net_core/src/boost_socket.cpp:4-44 | One receive hands on the first packet of the stream, or reports an error exactly when there is none, or is silent after a close |
| `Framing.BoostSocket.SendToClient` | server/net_core/src/boost_socket.cpp:58-64 | Appends one frame; after a close nothing |
| `Framing.BoostSocket.ForceClose` | server/net_core/src/boost_socket.cpp:66-74 | The socket is pending deletion, however often it is called |
| `Client.StreamUnderstood` | client/commandline_client.cpp:37-275 | A stream of packets that respect the phases and fit the buffer is read as exactly these packets |
| `Client.ReadsOnlyItsPhase` | client/commandline_client.cpp:40-92 | Whatever arrives, the client reads it as a packet of its own phase |
| `Client.CommandlineClient.ReadList` | client/commandline_client.cpp:72-84 | The loop decodes what the reading function gives, or stops at the underflow |
| `Client.CommandlineClient.OnRecv` | client/commandline_client.cpp:37-240 | The packet read, the new phase, and the end of the client by an uncaught underflow are those of the reading function |

## Left out

- Boost sockets, acceptors, strands, threads and real timers: they appear as atomic steps, posted tasks and events with times.
- PostgreSQL text, connections and transactions: tables are values, and names are not spliced into SQL text.
- `get_account_data` and the login validator: the validator's verdict, with the id of the account, comes with the packet; the account exists.
- Unbounded serializer writes: methods that write require that the value fits; what a write past the buffer does is not modelled, only when it happens.
- ServerRuns.RunFaultsExactly: does not count the asserts on a user's own set of rooms, which need the objects (WorldRuns.PlayAll), nor overruns of the outgoing buffer (FittingRuns.OverrunsExactly).
- ServerRuns.StepIsSafe: likewise, for one event.
- ServerRuns.ClientUnderstands: asks that every packet fits; FittingRuns.EveryClientUnderstands does not.
- WorldRuns.PlayAll: characters are neither created nor deleted in the course of a sequence; ServerSteps.Step has both.
- Database ids beyond `unsigned`: FittingRuns asks that the serial has not passed them.
- Integers of the host: a `size_t` has 8 bytes, an `unsigned` 4, little-endian; `unsigned` ids are unbounded naturals in the world and bounded on the wire.
- `count_of_awaiting_database_tasks_`: the program never changes it from 0.
- Console input and output, loggers, `main`, the server tick, null objects and the dummy validator.
- The one-line packet constructors of `s2c` and their backends: `Wire.Payload` gives their fields, and only the counted list has its loop.
- Entities as pointers: a character in the world is its id and name, which the invariants show to be unique.
- Connections as seen by chat and friends: the objects write to an outbox per user, and a step of the server forwards what is new through the session of that user.
- ServerSteps.Step: the transition system itself is on values; the handlers of the objects are proved to do what its pieces do (StepRefinement), but no object holds all sessions.
- The order in which one message reaches several users: it is not observable, so a fan-out is one step.
