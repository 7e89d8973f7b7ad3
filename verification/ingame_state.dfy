/** The ingame state as the object the server runs. */
module IngameStates {
  import opened Basics
  import opened Protocol
  import opened Codec
  import opened Database
  import opened WorldRegistrar
  import opened Friends
  import opened Worlds
  import opened Sessions
  import opened ServerSteps
  import opened PacketSafety
  import opened GameWorlds
  import opened Mmoclients
  import opened RecvPacketFactories
  import Chats
  import ChatSystem

  /** What the objects need of each other follows from the agreement of the world. */
  lemma AgreementSuffices(w: World, me: Entity, r: IngameRequest, now: int)
    requires Agrees(w, now) && me in w.entities
    ensures CanServe(w, me, r) && ChatSystem.Connected(w.social.mail.Keys, w.entities)
    ensures w.social.lists.Keys <= w.social.mail.Keys
    ensures forall n <- w.social.registry.byName :: w.social.registry.byName[n] in w.entities
  {
    ServedAgrees(w, me, r, now);
    forall n <- w.social.registry.byName
      ensures w.social.registry.byName[n] in w.entities
    {
      NamedUser(w, n);
    }
  }

  /** What the objects ask of the world before they serve a request. */
  ghost predicate Ready(universe: GameWorld)
    reads universe, universe.onlinePlayerRegistry, universe.chat, universe.chat.activeChatrooms.Values,
          universe.friends, universe.friends.db, universe.outboxes
  {
    && universe.Valid()
    && Sound(universe.friends.db.State())
    && Indexed(universe.onlinePlayerRegistry.State())
    && universe.friends.friendlistOfId.Keys <= universe.outboxes.mail.Keys
    && ChatSystem.Connected(universe.outboxes.mail.Keys, universe.chat.entities.Keys)
    && (forall n <- universe.onlinePlayerRegistry.nameToCharacter ::
          universe.onlinePlayerRegistry.nameToCharacter[n] in universe.chat.entities)
  }

  lemma AgreeingIsReady(universe: GameWorld, me: Entity, r: IngameRequest, now: int)
    requires universe.Valid() && Agrees(universe.State(), now) && me in universe.chat.entities
    ensures Ready(universe) && CanServe(universe.State(), me, r)
  {
    AgreementSuffices(universe.State(), me, r, now);
  }

  class ChatController {
    const universe: GameWorld
    const me: Entity

    constructor (universe: GameWorld, me: Entity)
      ensures this.universe == universe && this.me == me
    {
      this.universe, this.me := universe, me;
    }

    method RegisterMe(room: Text)
      requires Ready(universe) && me in universe.chat.entities
      modifies universe.chat, universe.chat.activeChatrooms.Values, universe.outboxes
      ensures universe.Valid()
      ensures universe.State()
              == WithChat(old(universe.State()), Chats.JoinRoom(ChatOf(old(universe.State())), me, room))
      ensures ChatSystem.OldOrNew(universe.chat)
    {
      ghost var c := universe.chat.State();
      universe.chat.JoinChatroom(me, room);
      assert universe.chat.State() == Chats.JoinRoom(c, me, room);
    }

    method UnregisterMe(room: Text)
      requires Ready(universe) && me in universe.chat.entities
      modifies universe.chat, universe.chat.activeChatrooms.Values, universe.outboxes
      ensures universe.Valid()
      ensures universe.State()
              == WithChat(old(universe.State()), Chats.LeaveRoom(ChatOf(old(universe.State())), me, room))
      ensures ChatSystem.OldOrNew(universe.chat)
    {
      ghost var c := universe.chat.State();
      universe.chat.LeaveChatroom(me, room);
      assert universe.chat.State() == Chats.LeaveRoom(c, me, room);
    }

    method BroadcastMessage(room: Text, message: Text)
      requires Ready(universe) && me in universe.chat.entities
      modifies universe.outboxes
      ensures universe.Valid()
      ensures universe.State()
           == WithChat(old(universe.State()), Chats.BroadcastMessage(ChatOf(old(universe.State())), me, room, message))
    {
      universe.chat.BroadcastTo(me, room, message);
    }

    method SendWhisper(recipient: Text, message: Text)
      requires Ready(universe) && me in universe.chat.entities
      modifies universe.outboxes
      ensures universe.Valid()
      ensures universe.State()
           == WithChat(old(universe.State()), Chats.Whisper(ChatOf(old(universe.State())), me, recipient, message))
    {
      universe.chat.WhisperTo(me, recipient, message);
    }
  }

  class FriendController {
    const universe: GameWorld
    const me: Entity

    constructor (universe: GameWorld, me: Entity)
      ensures this.universe == universe && this.me == me
    {
      this.universe, this.me := universe, me;
    }

    method OnReqFriendAdd(name: Text, now: int)
      requires Ready(universe) && CanRequest(universe.friends.State(), me, name)
      modifies universe.friends, universe.outboxes, universe.friends.pendingRequests, universe.friends.db`friends
      ensures universe.Valid()
      ensures var w := old(universe.State()); universe.State() == w.(social := RequestAdd(w.social, me, name, now))
    {
      universe.friends.ProcessReqFriendAdd(me, name, now);
    }

    method OnReqFriendRemove(name: Text)
      requires Ready(universe) && me.uid in universe.friends.friendlistOfId
      modifies universe.friends, universe.outboxes, universe.friends.db`friends
      ensures universe.Valid()
      ensures var w := old(universe.State()); universe.State() == w.(social := RequestRemove(w.social, me, name))
    {
      universe.friends.ProcessReqFriendRemove(me, name);
    }
  }

  predicate ForChat(r: IngameRequest) {
    r.JoinChat? || r.LeaveChat? || r.SendChatMsg? || r.SendWhisper?
  }

  method ExecuteInChat(chat: ChatController, r: IngameRequest, now: int)
    requires Ready(chat.universe) && CanServe(chat.universe.State(), chat.me, r) && ForChat(r)
    modifies chat.universe.chat, chat.universe.chat.activeChatrooms.Values, chat.universe.outboxes
    ensures chat.universe.Valid() && chat.universe.State() == ServedWorld(old(chat.universe.State()), chat.me, r, now)
    ensures ChatSystem.OldOrNew(chat.universe.chat)
  {
    match r {
      case JoinChat(room) => chat.RegisterMe(room);
      case LeaveChat(room) => chat.UnregisterMe(room);
      case SendChatMsg(room, message) => chat.BroadcastMessage(room, message);
      case SendWhisper(recipient, message) => chat.SendWhisper(recipient, message);
    }
  }

  method ExecuteInFriends(friends: FriendController, r: IngameRequest, now: int)
    requires Ready(friends.universe) && CanServe(friends.universe.State(), friends.me, r) && !ForChat(r)
    modifies friends.universe.friends, friends.universe.outboxes, friends.universe.friends.pendingRequests,
             friends.universe.friends.db`friends
    ensures friends.universe.Valid()
    ensures friends.universe.State() == ServedWorld(old(friends.universe.State()), friends.me, r, now)
  {
    match r {
      case FriendAdd(nick) => friends.OnReqFriendAdd(nick, now);
      case FriendRemove(nick) => friends.OnReqFriendRemove(nick);
      case _ =>
    }
  }

  /** Serves a request through the controller that it is for. */
  method ExecuteAssociatedAction(chat: ChatController, friends: FriendController, r: IngameRequest, now: int)
    requires chat.universe == friends.universe && chat.me == friends.me
    requires Ready(chat.universe) && CanServe(chat.universe.State(), chat.me, r)
    modifies chat.universe.chat, chat.universe.chat.activeChatrooms.Values, chat.universe.friends,
             chat.universe.outboxes, chat.universe.friends.pendingRequests, chat.universe.friends.db`friends
    ensures chat.universe.Valid() && chat.universe.State() == ServedWorld(old(chat.universe.State()), chat.me, r, now)
    ensures ChatSystem.OldOrNew(chat.universe.chat)
  {
    if ForChat(r) {
      ExecuteInChat(chat, r, now);
    } else {
      ExecuteInFriends(friends, r, now);
    }
  }

  class IngameState {
    const universe: GameWorld
    const session: Mmoclient
    const me: Entity
    const account: nat
    const chatController: ChatController
    const friendsController: FriendController

    ghost predicate Valid()
      reads this, universe, universe.chat, universe.chat.activeChatrooms.Values
    {
      && universe.Valid()
      && chatController.universe == universe && chatController.me == me
      && friendsController.universe == universe && friendsController.me == me
    }

    /** Entering the world; `order` is one in which the friends of the newcomer were visited. */
    constructor (universe: GameWorld, session: Mmoclient, me: Entity, account: nat)
      requires universe.Valid() && CanEnter(universe.State(), me) && Sound(universe.friends.db.State())
      modifies universe.onlinePlayerRegistry, universe.chat`entities, universe.friends, universe.outboxes
      ensures this.universe == universe && this.session == session && this.me == me && this.account == account
      ensures Valid()
      ensures exists order :: Enumerates(order, NewcomersFriends(old(universe.State()).social, me.uid))
                              && universe.State() == Enter(old(universe.State()), me, order)
    {
      this.universe, this.session, this.me, this.account := universe, session, me, account;
      chatController := new ChatController(universe, me);
      friendsController := new FriendController(universe, me);
      new;
      ghost var order := universe.ConstructIngameState(me);
      assert Enumerates(order, NewcomersFriends(old(universe.State()).social, me.uid));
    }

    /** What a request does to the session: a bad one closes it, log off schedules the lobby, and what is not in
        a transition polls again. */
    method Answer(r: IngameRequest, lobbyId: nat)
      requires Valid()
      modifies session
      ensures Valid() && universe.State() == old(universe.State())
      ensures session.State() == Answered(old(session.State()), account, r, lobbyId)
    {
      match r {
        case BadIngameRequest =>
          Close(session, universe);
        case LogOffToLobby =>
          Schedule(session, universe, Lobby(lobbyId, account, []));
          Poll(session, universe);
        case _ =>
          Poll(session, universe);
      }
    }

    method HandleNetworkPacket(data: array<Byte>, len: nat, now: int, lobbyId: nat)
      requires data.Length == BUFFER_SIZE && len <= BUFFER_SIZE
      requires Valid() && Ready(universe) && CanServe(universe.State(), me, ReadIngameRequest(data[..len]))
      modifies session, universe.chat, universe.chat.activeChatrooms.Values, universe.friends, universe.outboxes,
               universe.friends.pendingRequests, universe.friends.db`friends
      ensures Valid()
      ensures universe.State() == ServedWorld(old(universe.State()), me, ReadIngameRequest(old(data[..len])), now)
      ensures session.State() == Answered(old(session.State()), account, ReadIngameRequest(old(data[..len])), lobbyId)
    {
      var r := ConstructIngameRequest(data, len);
      ServeAndAnswer(r, now, lobbyId);
    }

    method ServeAndAnswer(r: IngameRequest, now: int, lobbyId: nat)
      requires Valid() && Ready(universe) && CanServe(universe.State(), me, r)
      modifies session, universe.chat, universe.chat.activeChatrooms.Values, universe.friends, universe.outboxes,
               universe.friends.pendingRequests, universe.friends.db`friends
      ensures Valid()
      ensures universe.State() == ServedWorld(old(universe.State()), me, r, now)
      ensures session.State() == Answered(old(session.State()), account, r, lobbyId)
    {
      ghost var s := session.State();
      ExecuteAssociatedAction(chatController, friendsController, r, now);
      assert session.State() == s;
      Answer(r, lobbyId);
    }

    /** The finalizer, the member that is destroyed last. */
    method DestroyFinalizer()
      requires Valid()
      modifies session
      ensures Valid() && universe.State() == old(universe.State())
      ensures session.State() == Send(old(session.State()), MovedToLobby)
      ensures session.told == old(session.told) + [Told(MovedToLobby, session.outboxes.mail)]
    {
      session.SendToClient(MovedToLobby);
    }

    /** Leaving the world, and telling the client last: when he is told, all that the logout mails has been sent and
        his own connection to the world is closed. */
    method Destroy() returns (ghost order: seq<Text>)
      requires Valid() && Ready(universe) && CanLeave(universe.State(), me) && session.outboxes == universe.outboxes
      modifies session, universe.onlinePlayerRegistry, universe.chat, universe.chat.activeChatrooms.Values,
               universe.friends, universe.outboxes
      ensures Valid()
      ensures Enumerates(order, Chats.RoomsOf(ChatOf(old(universe.State())), me))
      ensures universe.State() == Leave(old(universe.State()), me, order)
      ensures session.State() == Send(old(session.State()), MovedToLobby)
      ensures session.told
           == old(session.told) + [Told(MovedToLobby, Leave(old(universe.State()), me, order).social.mail)]
    {
      order := universe.DestroyIngameState(me);
      DestroyFinalizer();
    }
  }

  /** The session when a request has been answered. */
  function Answered(s: Session, account: nat, r: IngameRequest, lobbyId: nat): Session {
    match r
    case BadIngameRequest => Sessions.ForceClose(s)
    case LogOffToLobby => Sessions.ScheduleTransition(s, Lobby(lobbyId, account, []))
    case _ => PollAgain(s)
  }

  // ---------------------------------------------------------------- From the lobby into the world

  /** What a selection does to the session besides the packets that the login mails. */
  function Selecting(s: Session, account: nat, me: Entity): Session {
    Sessions.ScheduleTransition(Send(s, CharacterSelected(me.name)), Ingame(account, me))
  }

  method TellSelected(session: Mmoclient, universe: GameWorld, me: Entity)
    requires universe.Valid()
    modifies session
    ensures universe.Valid() && universe.State() == old(universe.State())
    ensures session.State() == Send(old(session.State()), CharacterSelected(me.name))
    ensures session.told == old(session.told) + [Told(CharacterSelected(me.name), session.outboxes.mail)]
  {
    session.SendToClient(CharacterSelected(me.name));
  }

  method Schedule(session: Mmoclient, universe: GameWorld, next: ClientState)
    requires universe.Valid()
    modifies session
    ensures universe.Valid() && universe.State() == old(universe.State())
    ensures session.State() == Sessions.ScheduleTransition(old(session.State()), next)
    ensures session.told == old(session.told)
  {
    session.ScheduleTransition(next);
  }

  method Close(session: Mmoclient, universe: GameWorld)
    requires universe.Valid()
    modifies session
    ensures universe.Valid() && universe.State() == old(universe.State())
    ensures session.State() == Sessions.ForceClose(old(session.State())) && session.told == old(session.told)
  {
    session.ForceClose();
  }

  method Poll(session: Mmoclient, universe: GameWorld)
    requires universe.Valid()
    modifies session
    ensures universe.Valid() && universe.State() == old(universe.State())
    ensures session.State() == PollAgain(old(session.State())) && session.told == old(session.told)
  {
    session.PollUnlessInTransition();
  }

  /** What a selection has done: closed the session of a client that asks for a character it does not have, or
      told the client, brought the character into the world and scheduled the transition. */
  ghost predicate Selected(w: World, s: Session, name: Text, w': World, s': Session)
    requires s.current.Lobby?
  {
    var i := Find(s.current.chars, name);
    if i == |s.current.chars| then w' == w && s' == Sessions.ForceClose(s)
    else
      var me := s.current.chars[i];
      && s' == Selecting(s, s.current.account, me)
      && CanEnter(w, me)
      && exists order :: Enumerates(order, NewcomersFriends(w.social, me.uid)) && w' == Enter(w, me, order)
  }

  /** What the session itself sends on a selection: the client is told before the login mails anything. */
  function ToldOfSelection(mail: Mail, s: Session, name: Text): seq<Told>
    requires s.current.Lobby?
  {
    var i := Find(s.current.chars, name);
    if i == |s.current.chars| then [] else [Told(CharacterSelected(s.current.chars[i].name), mail)]
  }

  /** Tells the client, then constructs the ingame state, then schedules the transition to it. */
  method RequestCharacterSelect(session: Mmoclient, universe: GameWorld, name: Text)
    requires universe.Valid() && Sound(universe.friends.db.State()) && session.currentState.Lobby?
    requires session.outboxes == universe.outboxes
    requires var i := Find(session.currentState.chars, name);
             i < |session.currentState.chars| ==> CanEnter(universe.State(), session.currentState.chars[i])
    modifies session, universe.onlinePlayerRegistry, universe.chat`entities, universe.friends, universe.outboxes
    ensures universe.Valid()
    ensures Selected(old(universe.State()), old(session.State()), name, universe.State(), session.State())
    ensures session.told
         == old(session.told) + ToldOfSelection(old(universe.outboxes.mail), old(session.State()), name)
  {
    var i := FindIf(session.currentState.chars, name);
    if i == |session.currentState.chars| {
      Close(session, universe);
      return;
    }
    var me, account := session.currentState.chars[i], session.currentState.account;
    TellSelected(session, universe, me);
    var ingame := new IngameState(universe, session, me, account);
    Schedule(session, universe, Ingame(account, me));
  }

  // ---------------------------------------------------------------- Every packet to the lobby

  /** World and session when a packet to the lobby has been handled. */
  ghost predicate LobbyHandled(w: World, s: Session, r: LobbyRequest, w': World, s': Session)
    requires s.current.Lobby?
  {
    match r
    case Select(name) => Selected(w, s, name, w', s')
    case _ =>
      var (t', served) := AfterOther(w.social.tables, s, r);
      w' == w.(social := w.social.(tables := t')) && s' == served
  }

  method ServeOtherInWorld(lobby: LobbyState, universe: GameWorld, r: LobbyRequest)
    requires universe.Valid() && universe.friends.db == lobby.db && Sound(lobby.db.State())
    requires lobby.session.currentState.Lobby? && !r.Select?
    modifies lobby.session, lobby.db
    ensures universe.Valid()
    ensures LobbyHandled(old(universe.State()), old(lobby.session.State()), r, universe.State(), lobby.session.State())
  {
    lobby.ServeOther(r);
  }

  /** A selection leaves nothing to poll for: it has scheduled a transition or closed the session. */
  method PollAfterSelection(session: Mmoclient, universe: GameWorld)
    requires universe.Valid() && (!session.hasSocket || session.asyncState == StateTransition)
    modifies session
    ensures universe.Valid() && universe.State() == old(universe.State()) && session.State() == old(session.State())
  {
    session.PollUnlessInTransition();
  }

  /** The lobby's handler, for every packet. */
  method HandleLobbyPacket(lobby: LobbyState, universe: GameWorld, data: array<Byte>, len: nat)
    requires data.Length == BUFFER_SIZE && len <= BUFFER_SIZE
    requires universe.Valid() && universe.friends.db == lobby.db && Sound(lobby.db.State())
    requires lobby.session.currentState.Lobby? && lobby.session.outboxes == universe.outboxes
    requires forall e <- lobby.session.currentState.chars :: CanEnter(universe.State(), e)
    modifies lobby.session, lobby.db, universe.onlinePlayerRegistry, universe.chat`entities, universe.friends,
             universe.outboxes
    ensures universe.Valid()
    ensures LobbyHandled(old(universe.State()), old(lobby.session.State()), ReadLobbyRequest(old(data[..len])),
                         universe.State(), lobby.session.State())
  {
    var r := ConstructLobbyRequest(data, len);
    if r.Select? {
      RequestCharacterSelect(lobby.session, universe, r.name);
      PollAfterSelection(lobby.session, universe);
    } else {
      ServeOtherInWorld(lobby, universe, r);
    }
  }
}
