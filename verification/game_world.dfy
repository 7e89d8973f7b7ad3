/** The world as the objects the server runs, and the construction and destruction of an ingame state in it. */
module GameWorlds {
  import opened Basics
  import opened Protocol
  import opened Database
  import opened PendingRequests
  import opened WorldRegistrar
  import opened Friends
  import opened Worlds
  import Chats
  import FriendSystem
  import ChatSystem

  class GameWorld {
    const onlinePlayerRegistry: Registrar
    const chat: ChatSystem.ChatSystem
    const friends: FriendSystem.FriendSystem
    const outboxes: Outboxes

    ghost function State(): World
      reads this, onlinePlayerRegistry, chat, friends, friends.db, friends.pendingRequests, friends.playerRegistry,
            friends.outboxes
    {
      World(friends.State(), chat.entities.Keys, chat.joined)
    }

    /** Both systems use the one registrar and the connections of the users, and the chat is intact. */
    ghost predicate Valid()
      reads this, chat, chat.activeChatrooms.Values
    {
      && friends.playerRegistry == onlinePlayerRegistry && chat.onlinePlayerRegistry == onlinePlayerRegistry
      && friends.outboxes == outboxes && chat.outboxes == outboxes
      && chat.Valid()
    }

    constructor (db: PsqlFacade)
      ensures Valid() && friends.db == db && chat.activeChatrooms == map[]
      ensures fresh(onlinePlayerRegistry) && fresh(chat) && fresh(friends) && fresh(outboxes)
      ensures fresh(friends.pendingRequests)
      ensures State() == World(Social(Registry(map[], map[]), db.State(), map[], EMPTY, map[]), {}, map[])
    {
      var registry := new Registrar();
      var boxes := new Outboxes();
      onlinePlayerRegistry, outboxes := registry, boxes;
      friends := new FriendSystem.FriendSystem(registry, db, boxes);
      chat := new ChatSystem.ChatSystem(registry, boxes);
    }

    /** The members of an ingame state in their order, and then the body of its constructor. */
    method ConstructIngameState(me: Entity) returns (ghost order: seq<Uid>)
      requires Valid() && CanEnter(State(), me) && Sound(friends.db.State())
      modifies onlinePlayerRegistry, chat`entities, friends, outboxes
      ensures Valid()
      ensures Enumerates(order, NewcomersFriends(old(State()).social, me.uid))
      ensures State() == Enter(old(State()), me, order)
    {
      ghost var w := State();
      ConstructChatController(me);
      ghost var w1 := State();
      assert NewcomersFriends(w1.social, me.uid) == NewcomersFriends(w.social, me.uid);
      order := ConstructFriendController(me);
      EnterRegistrar(me);
      assert State() == InRegistrar(InFriends(w1, me, order), me);
    }

    method ConstructChatController(me: Entity)
      requires Valid() && me !in chat.entities
      modifies chat`entities, outboxes
      ensures Valid() && State() == InChat(Opened(old(State()), me), me)
    {
      outboxes.Open(me.uid);
      chat.RegisterMe(me);
    }

    method ConstructFriendController(me: Entity) returns (ghost order: seq<Uid>)
      requires Valid() && CanRegister(State().social, me) && Sound(friends.db.State())
      modifies friends, outboxes
      ensures Valid()
      ensures Enumerates(order, NewcomersFriends(old(State()).social, me.uid))
      ensures State() == InFriends(old(State()), me, order)
    {
      order := friends.RegisterMe(me);
    }

    method EnterRegistrar(me: Entity)
      requires Valid() && me.uid !in State().social.registry.byId && me.name !in State().social.registry.byName
      modifies onlinePlayerRegistry
      ensures Valid() && State() == InRegistrar(old(State()), me)
    {
      onlinePlayerRegistry.RegisterMe(me);
    }

    /** The body of the destructor of an ingame state, and then its members in reverse order. */
    method DestroyIngameState(me: Entity) returns (ghost order: seq<Text>)
      requires Valid() && CanLeave(State(), me) && friends.friendlistOfId.Keys <= outboxes.mail.Keys
      requires ChatSystem.Connected(outboxes.mail.Keys, chat.entities.Keys)
      modifies onlinePlayerRegistry, chat, chat.activeChatrooms.Values, friends, outboxes
      ensures Valid()
      ensures Enumerates(order, Chats.RoomsOf(ChatOf(old(State())), me))
      ensures State() == Leave(old(State()), me, order)
      ensures ChatSystem.OldOrNew(chat)
    {
      ghost var w := State();
      DestroyFriendController(me);
      ghost var w1 := State();
      SameRooms(ChatOf(w), ChatOf(w1), me);
      order := DestroyChatController(me);
      ghost var w2 := State();
      CloseConnection(me);
      assert Closed(w2, me) == Leave(w, me, order);
    }

    method CloseConnection(me: Entity)
      requires Valid()
      modifies outboxes
      ensures Valid() && State() == Closed(old(State()), me)
    {
      outboxes.Close(me.uid);
    }

    method DestroyFriendController(me: Entity)
      requires Valid() && CanLeave(State(), me) && friends.friendlistOfId.Keys <= outboxes.mail.Keys
      modifies onlinePlayerRegistry, friends, outboxes
      ensures Valid() && outboxes.mail.Keys == old(outboxes.mail.Keys)
      ensures State() == OutOfFriends(OutOfRegistrar(old(State()), me), me)
    {
      onlinePlayerRegistry.UnregisterMe(me);
      friends.UnregisterMe(me);
    }

    method DestroyChatController(me: Entity) returns (ghost order: seq<Text>)
      requires Valid() && me in chat.entities
      requires ChatSystem.Connected(outboxes.mail.Keys, chat.entities.Keys)
      modifies chat, chat.activeChatrooms.Values, outboxes
      ensures Valid()
      ensures Enumerates(order, Chats.RoomsOf(ChatOf(old(State())), me))
      ensures State() == OutOfChat(old(State()), me, order)
      ensures ChatSystem.OldOrNew(chat)
    {
      order := chat.UnregisterMe(me);
    }

    /** The timer of the chat. */
    method RunBroadcast() returns (ghost order: seq<Text>)
      requires Valid() && Chats.RoomsAgree(chat.State())
      requires ChatSystem.Connected(outboxes.mail.Keys, chat.entities.Keys)
      modifies outboxes
      ensures Valid() && Enumerates(order, chat.joined.Keys)
      ensures State() == WithChat(old(State()), Chats.PeriodicBroadcast(ChatOf(old(State())), order))
    {
      order := chat.PeriodicBroadcastTo();
    }

    /** The timer of the waiting requests. */
    method RunCleanup()
      requires Valid()
      modifies friends.pendingRequests
      ensures Valid()
      ensures State() == old(State()).(social := old(State()).social.(buffers := Cleanup(old(State()).social.buffers)))
    {
      friends.pendingRequests.PeriodicCleanup();
    }
  }
}
