/** The world: the registrar, the friend system and the chat system side by side, and how a character
    enters and leaves them. */
module Worlds {
  import opened Basics
  import opened Protocol
  import opened Database
  import opened PendingRequests
  import opened WorldRegistrar
  import opened Friends
  import Chats

  datatype World = World(social: Social, entities: set<Entity>, rooms: map<Text, seq<Entity>>)

  function ChatOf(w: World): Chats.Chat {
    Chats.Chat(w.social.registry, w.entities, w.rooms, w.social.mail)
  }

  function WithChat(w: World, c: Chats.Chat): World {
    World(w.social.(mail := c.mail), c.entities, c.rooms)
  }

  // ---------------------------------------------------------------- Entering and leaving

  /** The connection is there and nothing has been sent through it yet. */
  function Opened(w: World, me: Entity): World {
    w.(social := w.social.(mail := w.social.mail[me.uid := []]))
  }

  /** The chat controller is constructed first, ... */
  function InChat(w: World, me: Entity): World {
    WithChat(w, Chats.RegisterUser(ChatOf(w), me))
  }

  /** ... then the friend controller, ... */
  function InFriends(w: World, me: Entity, order: seq<Uid>): World
    requires CanRegister(w.social, me) && Enumerates(order, NewcomersFriends(w.social, me.uid))
  {
    w.(social := Register(w.social, me, order))
  }

  /** ... and the registrar hears of the character last. */
  function InRegistrar(w: World, me: Entity): World {
    w.(social := w.social.(registry := Added(w.social.registry, me)))
  }

  /** What the constructor of the ingame state needs: the asserts of all three registrations. */
  ghost predicate CanEnter(w: World, me: Entity) {
    && me !in w.entities
    && CanRegister(InChat(Opened(w, me), me).social, me)
    && me.uid !in w.social.registry.byId && me.name !in w.social.registry.byName
  }

  function Enter(w: World, me: Entity, order: seq<Uid>): World
    requires CanRegister(InChat(Opened(w, me), me).social, me)
    requires Enumerates(order, NewcomersFriends(w.social, me.uid))
  {
    InRegistrar(InFriends(InChat(Opened(w, me), me), me, order), me)
  }

  function OutOfRegistrar(w: World, me: Entity): World {
    w.(social := w.social.(registry := Dropped(w.social.registry, me)))
  }

  function OutOfFriends(w: World, me: Entity): World
    requires me.uid in w.social.lists
  {
    w.(social := Unregister(w.social, me))
  }

  function OutOfChat(w: World, me: Entity, order: seq<Text>): World {
    WithChat(w, Chats.UnregisterUser(ChatOf(w), me, order))
  }

  function Closed(w: World, me: Entity): World {
    w.(social := w.social.(mail := w.social.mail - {me.uid}))
  }

  /** The asserts of the three destructors. */
  ghost predicate CanLeave(w: World, me: Entity) {
    && me.uid in w.social.registry.byId && me.name in w.social.registry.byName
    && me.uid in w.social.lists
    && me in w.entities
  }

  /** The destructor of the ingame state: its body, and then its members in reverse order. */
  function Leave(w: World, me: Entity, order: seq<Text>): World
    requires me.uid in w.social.lists
  {
    Closed(OutOfChat(OutOfFriends(OutOfRegistrar(w, me), me), me, order), me)
  }

  // ---------------------------------------------------------------- Invariants

  /** The same users are in the chat, the friend system, both indexes of the registrar and the mail. */
  ghost predicate SameUsers(w: World) {
    && RegistryAgrees(w.social)
    && w.social.mail.Keys == w.social.lists.Keys
    && (forall e <- w.entities :: e.uid in w.social.registry.byId && w.social.registry.byId[e.uid] == e)
    && (forall u <- w.social.registry.byId :: w.social.registry.byId[u] in w.entities)
  }

  ghost predicate Agrees(w: World, now: int) {
    && Consistent(w.social, now)
    && SameUsers(w)
    && Chats.Consistent(ChatOf(w))
  }

  /** In the middle of a login or logout: registrar within friends within chat. */
  predicate Nested(w: World) {
    && w.social.registry.byId.Keys <= w.social.lists.Keys
    && forall u <- w.social.lists :: exists e <- w.entities :: e.uid == u
  }

  lemma SameUsersAreNested(w: World)
    requires SameUsers(w)
    ensures Nested(w)
  {
    forall u <- w.social.lists
      ensures exists e <- w.entities :: e.uid == u
    {
      assert w.social.registry.byId[u] in w.entities;
    }
  }

  // ---------------------------------------------------------------- Mail that the other system does not read

  lemma {:induction false} ReplayKeeps(log: seq<Packet>, more: seq<Packet>)
    requires forall p <- more :: !IsNotification(p)
    ensures Replay(log + more) == Replay(log)
    decreases |more|
  {
    if more == [] {
      assert log + more == log;
    } else {
      var init, p := more[..|more| - 1], more[|more| - 1];
      assert p in more;
      ReplayKeeps(log, init);
      ReplayOne(log + init, p);
      assert log + more == log + init + [p];
    }
  }

  lemma ChatMailIsConsistent(s: Social, mail: Mail, now: int)
    requires Consistent(s, now) && Grows(s.mail, mail, {FromChat})
    ensures Consistent(s.(mail := mail), now)
  {
    ChatMailReplays(s, mail);
  }

  lemma ChatMailReplays(s: Social, mail: Mail)
    requires ReplayAgrees(s) && Grows(s.mail, mail, {FromChat})
    ensures ReplayAgrees(s.(mail := mail))
  {
    var s' := s.(mail := mail);
    forall u <- s.lists
      ensures ViewAgrees(s', u)
    {
      assert ViewAgrees(s, u) && GrowsAt(s.mail, mail, u, {FromChat});
      var more := mail[u][|s.mail[u]|..];
      assert mail[u] == s.mail[u] + more;
      ReplayKeeps(s.mail[u], more);
      assert OnlineFriends(s', u) == OnlineFriends(s, u);
    }
  }

  lemma ReplyGrows(s: Social, me: Entity, p: Packet)
    requires SenderOf(p) == FromFriends
    ensures Grows(s.mail, Reply(s, me, p).mail, {FromFriends})
  {
    DeliverGrows(s.mail, {me.uid}, p, {FromFriends});
  }

  lemma AppendGrows(a: Mail, b: Mail, u: Uid, ps: seq<Packet>, senders: set<Sender>)
    requires Grows(a, b, senders) && u in a && b[u] == a[u] && AllFrom(ps, senders)
    ensures Grows(a, b[u := b[u] + ps], senders)
  {
    var c := b[u := b[u] + ps];
    forall v <- a
      ensures GrowsAt(a, c, v, senders)
    {
      if v == u {
        assert c[v][|a[v]|..] == ps;
      } else {
        assert GrowsAt(a, b, v, senders);
      }
    }
  }

  lemma RegisterGrows(s: Social, me: Entity, order: seq<Uid>)
    requires CanRegister(s, me) && Enumerates(order, NewcomersFriends(s, me.uid))
    requires me.uid !in NewcomersFriends(s, me.uid)
    ensures Grows(s.mail, Register(s, me, order).mail, {FromFriends})
  {
    DeliverGrows(s.mail, NewcomersFriends(s, me.uid), FriendLogin(me.name), {FromFriends});
    AppendGrows(s.mail, Deliver(s.mail, NewcomersFriends(s, me.uid), FriendLogin(me.name)), me.uid,
                Greetings(s.registry, order), {FromFriends});
  }

  lemma UnregisterGrows(s: Social, me: Entity)
    requires me.uid in s.lists
    ensures Grows(s.mail, Unregister(s, me).mail, {FromFriends})
  {
    DeliverGrows(s.mail, OnlineFriends(s, me.uid), FriendLeave(me.name), {FromFriends});
  }

  lemma InviteGrows(s: Social, me: Entity, target: Entity, now: int)
    requires me.uid in s.lists && target.uid in s.lists
    ensures Grows(s.mail, Invite(s, me, target, now).mail, {FromFriends})
  {
    match AnswerTo(s.buffers, Request(me.uid, target.uid), now)
    case AlreadyInBuffer =>
      ReplyGrows(s, me, FriendAddResult(PreviousStillWaiting, target.name));
    case SuccesfullyAdded =>
      TwoRepliesGrow(s, target, FriendshipRequest(me.name), me, FriendAddResult(SentSuccesfully, target.name));
    case ThatWasAMatch =>
      TwoRepliesGrow(s, me, NewFriendship(target.name), target, NewFriendship(me.name));
  }

  lemma TwoRepliesGrow(s: Social, one: Entity, p: Packet, other: Entity, q: Packet)
    requires SenderOf(p) == SenderOf(q) == FromFriends
    ensures Grows(s.mail, Tell(Tell(s.mail, one.uid, p), other.uid, q), {FromFriends})
  {
    DeliverGrows(s.mail, {one.uid}, p, {FromFriends});
    DeliverGrows(Tell(s.mail, one.uid, p), {other.uid}, q, {FromFriends});
    GrowsTransitive(s.mail, Tell(s.mail, one.uid, p), Tell(Tell(s.mail, one.uid, p), other.uid, q), {FromFriends});
  }

  lemma RequestAddGrows(s: Social, me: Entity, name: Text, now: int)
    requires CanRequest(s, me, name)
    ensures Grows(s.mail, RequestAdd(s, me, name, now).mail, {FromFriends})
  {
    ReplyGrows(s, me, FriendAddFail(PlayerNotOnline, name));
    ReplyGrows(s, me, FriendAddFail(CannotInviteSelf, name));
    ReplyGrows(s, me, FriendAddFail(AlreadyFriends, name));
    if name in s.registry.byName {
      InviteGrows(s, me, s.registry.byName[name], now);
    }
  }

  lemma RequestRemoveGrows(s: Social, me: Entity, name: Text)
    requires me.uid in s.lists
    ensures Grows(s.mail, RequestRemove(s, me, name).mail, {FromFriends})
  {
    var target := Entity(UidOf(s.tables, name), name);
    ReplyGrows(s, me, FriendRemovalFail(name));
    ReplyGrows(s, me, BrokenFriendship(name));
    TwoRepliesGrow(s, me, BrokenFriendship(name), target, BrokenFriendship(me.name));
  }

  lemma JoinGrows(c: Chats.Chat, me: Entity, room: Text)
    ensures Grows(c.mail, Chats.JoinRoom(c, me, room).mail, {FromChat})
  {
    DeliverGrows(c.mail, Chats.UidsOf(Chats.Members(c, room) + [me]), UserJoinedChat(room, me.name), {FromChat});
  }

  lemma LeaveGrows(c: Chats.Chat, me: Entity, room: Text)
    ensures Grows(c.mail, Chats.LeaveRoom(c, me, room).mail, {FromChat})
  {
    DeliverGrows(c.mail, Chats.UidsOf(Without(Chats.Members(c, room), me)), UserLeftChat(room, me.name), {FromChat});
  }

  lemma {:induction false} LeaveRoomsGrows(c: Chats.Chat, me: Entity, order: seq<Text>)
    ensures Grows(c.mail, Chats.LeaveRooms(c, me, order).mail, {FromChat})
    decreases |order|
  {
    if order != [] {
      var init := order[..|order| - 1];
      LeaveRoomsGrows(c, me, init);
      LeaveGrows(Chats.LeaveRooms(c, me, init), me, order[|order| - 1]);
      GrowsTransitive(c.mail, Chats.LeaveRooms(c, me, init).mail, Chats.LeaveRooms(c, me, order).mail, {FromChat});
    }
  }

  lemma {:induction false} PeriodicBroadcastGrows(c: Chats.Chat, order: seq<Text>)
    ensures Grows(c.mail, Chats.PeriodicBroadcast(c, order).mail, {FromChat})
    decreases |order|
  {
    if order != [] {
      var init := order[..|order| - 1];
      var room := order[|order| - 1];
      var c1 := Chats.PeriodicBroadcast(c, init);
      PeriodicBroadcastGrows(c, init);
      DeliverGrows(c1.mail, Chats.UidsOf(Chats.Members(c, room)), Chats.Census(c, room), {FromChat});
      GrowsTransitive(c.mail, c1.mail, Chats.PeriodicBroadcast(c, order).mail, {FromChat});
    }
  }

  // ---------------------------------------------------------------- Every operation keeps the world in agreement

  /** The chat's view of agreement, under mail of the friend system. */
  lemma FriendMailKeepsChat(w: World, s: Social)
    requires Chats.Consistent(ChatOf(w)) && Grows(w.social.mail, s.mail, {FromFriends})
    ensures Chats.Consistent(ChatOf(w.(social := s)))
  {
    Chats.OtherMailIsConsistent(ChatOf(w), s.mail);
    ConsistentIgnoresRegistry(ChatOf(w).(mail := s.mail), s.registry);
  }

  lemma ConsistentIgnoresRegistry(c: Chats.Chat, r: Registry)
    requires Chats.Consistent(c)
    ensures Chats.Consistent(c.(registry := r))
  {
    var c' := c.(registry := r);
    forall room <- c.rooms, e <- c.rooms[room]
      ensures Chats.ViewAgrees(c', room, e)
    {
      assert Chats.ViewAgrees(c, room, e);
    }
  }

  lemma FriendOperationAgrees(w: World, s: Social, now: int)
    requires Agrees(w, now) && Consistent(s, now)
    requires s.registry == w.social.registry && s.lists.Keys == w.social.lists.Keys
    requires s.tables.characters == w.social.tables.characters
    requires Grows(w.social.mail, s.mail, {FromFriends})
    ensures Agrees(w.(social := s), now)
  {
    FriendMailKeepsChat(w, s);
  }

  lemma ChatOperationAgrees(w: World, c: Chats.Chat, now: int)
    requires Agrees(w, now) && Chats.Consistent(c)
    requires c.registry == w.social.registry && c.entities == w.entities
    requires Grows(w.social.mail, c.mail, {FromChat})
    ensures Agrees(WithChat(w, c), now)
  {
    ChatMailIsConsistent(w.social, c.mail, now);
    assert ChatOf(WithChat(w, c)) == c;
  }

  lemma KnownUser(w: World, me: Entity)
    requires SameUsers(w) && me in w.entities
    ensures me.uid in w.social.lists && HasNickname(w.social.tables, me.uid, me.name)
  {
  }

  lemma RequestAddFrame(s: Social, me: Entity, name: Text, now: int)
    requires CanRequest(s, me, name)
    ensures var s' := RequestAdd(s, me, name, now);
            s'.registry == s.registry && s'.lists.Keys == s.lists.Keys && s'.tables.characters == s.tables.characters
            && s'.tables.nextId == s.tables.nextId
  {
  }

  lemma RequestRemoveFrame(s: Social, me: Entity, name: Text)
    requires me.uid in s.lists
    ensures var s' := RequestRemove(s, me, name);
            s'.registry == s.registry && s'.lists.Keys == s.lists.Keys && s'.tables.characters == s.tables.characters
            && s'.tables.nextId == s.tables.nextId && s'.buffers == s.buffers
  {
  }

  lemma FriendAddAgrees(w: World, me: Entity, name: Text, now: int)
    requires Agrees(w, now) && me in w.entities
    ensures CanRequest(w.social, me, name)
    ensures Agrees(w.(social := RequestAdd(w.social, me, name, now)), now)
  {
    KnownUser(w, me);
    RequestAddIsConsistent(w.social, me, name, now);
    RequestAddGrows(w.social, me, name, now);
    RequestAddFrame(w.social, me, name, now);
    FriendOperationAgrees(w, RequestAdd(w.social, me, name, now), now);
  }

  lemma FriendRemoveAgrees(w: World, me: Entity, name: Text, now: int)
    requires Agrees(w, now) && me in w.entities
    ensures Agrees(w.(social := RequestRemove(w.social, me, name)), now)
  {
    KnownUser(w, me);
    RequestRemoveIsConsistent(w.social, me, name, now);
    RequestRemoveGrows(w.social, me, name);
    RequestRemoveFrame(w.social, me, name);
    FriendOperationAgrees(w, RequestRemove(w.social, me, name), now);
  }

  lemma JoinAgrees(w: World, me: Entity, room: Text, now: int)
    requires Agrees(w, now) && me in w.entities
    ensures Agrees(WithChat(w, Chats.JoinRoom(ChatOf(w), me, room)), now)
  {
    Chats.JoinIsConsistent(ChatOf(w), me, room);
    JoinGrows(ChatOf(w), me, room);
    RoomsFrame(ChatOf(w), me, room);
    ChatOperationAgrees(w, Chats.JoinRoom(ChatOf(w), me, room), now);
  }

  lemma RoomsFrame(c: Chats.Chat, me: Entity, room: Text)
    ensures var c' := Chats.JoinRoom(c, me, room); c'.registry == c.registry && c'.entities == c.entities
    ensures var c' := Chats.LeaveRoom(c, me, room); c'.registry == c.registry && c'.entities == c.entities
  {
  }

  lemma LeaveRoomAgrees(w: World, me: Entity, room: Text, now: int)
    requires Agrees(w, now) && me in w.entities
    ensures Agrees(WithChat(w, Chats.LeaveRoom(ChatOf(w), me, room)), now)
  {
    Chats.LeaveIsConsistent(ChatOf(w), me, room);
    LeaveGrows(ChatOf(w), me, room);
    RoomsFrame(ChatOf(w), me, room);
    ChatOperationAgrees(w, Chats.LeaveRoom(ChatOf(w), me, room), now);
  }

  lemma MessageAgrees(w: World, to: set<Uid>, p: Packet, now: int)
    requires Agrees(w, now) && SenderOf(p) == FromChat && !Chats.IsMembership(p)
    ensures Agrees(w.(social := w.social.(mail := Deliver(w.social.mail, to, p))), now)
  {
    var c := ChatOf(w);
    Chats.MessageIsConsistent(c, to, p);
    DeliverGrows(c.mail, to, p, {FromChat});
    ChatOperationAgrees(w, c.(mail := Deliver(c.mail, to, p)), now);
  }

  lemma PeriodicBroadcastAgrees(w: World, order: seq<Text>, now: int)
    requires Agrees(w, now)
    ensures Agrees(WithChat(w, Chats.PeriodicBroadcast(ChatOf(w), order)), now)
  {
    Chats.PeriodicBroadcastIsConsistent(ChatOf(w), order);
    PeriodicBroadcastGrows(ChatOf(w), order);
    ChatOperationAgrees(w, Chats.PeriodicBroadcast(ChatOf(w), order), now);
  }

  lemma TimeAgrees(w: World, now: int, later: int)
    requires Agrees(w, now) && now <= later
    ensures Agrees(w, later)
    ensures Agrees(w.(social := w.social.(buffers := Cleanup(w.social.buffers))), later)
  {
    TimeIsConsistent(w.social, now, later);
    var w' := w.(social := w.social.(buffers := Cleanup(w.social.buffers)));
    assert ChatOf(w') == ChatOf(w);
  }

  lemma CreatedAgrees(w: World, name: Text, owner: nat, now: int)
    requires Agrees(w, now) && UidOf(w.social.tables, name) == INVALID_ID
    ensures Agrees(w.(social := w.social.(tables := Created(w.social.tables, name, owner))), now)
  {
    CreatedIsConsistent(w.social, name, owner, now);
    var w' := w.(social := w.social.(tables := Created(w.social.tables, name, owner)));
    assert ChatOf(w') == ChatOf(w);
    TablesKeepUsers(w, w');
  }

  lemma TablesKeepUsers(w: World, w': World)
    requires SameUsers(w) && w' == w.(social := w.social.(tables := w'.social.tables))
    requires forall u <- w.social.lists ::
               && u in w.social.tables.characters && u in w'.social.tables.characters
               && w.social.tables.characters[u] == w'.social.tables.characters[u]
    ensures SameUsers(w')
  {
  }

  lemma ErasedAgrees(w: World, e: Entity, owner: nat, now: int)
    requires Agrees(w, now) && e in Owned(w.social.tables, owner) && !Referenced(w.social.tables, e.name)
    requires e.uid !in w.social.lists
    ensures Agrees(w.(social := w.social.(tables := Erased(w.social.tables, e.name))), now)
  {
    ErasedIsConsistent(w.social, e, owner, now);
    ErasedIsSound(w.social.tables, e, owner);
    var w' := w.(social := w.social.(tables := Erased(w.social.tables, e.name)));
    assert ChatOf(w') == ChatOf(w);
  }

  // ---------------------------------------------------------------- Login

  /** Nobody who is in the world has my id or my name. */
  ghost predicate Stranger(w: World, me: Entity) {
    && me.uid !in w.social.registry.byId && me.name !in w.social.registry.byName
    && me.uid !in w.social.lists && me.uid !in w.social.mail
    && (forall e <- w.entities :: e.uid != me.uid && e.name != me.name)
  }

  lemma OfflineIsStranger(w: World, me: Entity)
    requires SameUsers(w) && UniqueNicknames(w.social.tables.characters)
    requires HasNickname(w.social.tables, me.uid, me.name) && me.uid !in w.social.lists
    ensures Stranger(w, me)
  {
    var r, characters := w.social.registry, w.social.tables.characters;
    forall u <- r.byId
      ensures r.byId[u].name == me.name ==> u == me.uid
    {
      assert characters[u].nickname == r.byId[u].name;
    }
    forall e <- w.entities
      ensures e.uid != me.uid && e.name != me.name
    {
      assert e.uid in r.byId && r.byId[e.uid] == e;
    }
  }

  lemma OpenedChat(w: World, me: Entity)
    requires Chats.Consistent(ChatOf(w)) && Stranger(w, me)
    ensures Chats.Consistent(ChatOf(InChat(Opened(w, me), me)))
  {
    var c := ChatOf(Opened(w, me));
    forall room <- c.rooms, e <- c.rooms[room]
      ensures Chats.ViewAgrees(c, room, e)
    {
      assert Chats.ViewAgrees(ChatOf(w), room, e) && e in w.entities;
    }
    Chats.RegisterIsConsistent(c, me);
    assert ChatOf(InChat(Opened(w, me), me)) == Chats.RegisterUser(c, me);
  }

  lemma OpenedFriends(s: Social, u: Uid, now: int)
    requires Consistent(s, now) && u !in s.lists
    ensures Consistent(s.(mail := s.mail[u := []]), now)
  {
    OpenedReplay(s, u);
  }

  lemma OpenedReplay(s: Social, u: Uid)
    requires ReplayAgrees(s) && u !in s.lists
    ensures ReplayAgrees(s.(mail := s.mail[u := []]))
  {
    var s' := s.(mail := s.mail[u := []]);
    forall v <- s.lists
      ensures ViewAgrees(s', v)
    {
      assert ViewAgrees(s, v);
    }
  }

  /** The steps of a login, with the condition that each one asserts. */
  lemma EnterSteps(w: World, me: Entity, order: seq<Uid>, now: int) returns (w1: World, w2: World)
    requires Agrees(w, now) && Stranger(w, me) && HasNickname(w.social.tables, me.uid, me.name)
    requires Enumerates(order, NewcomersFriends(w.social, me.uid))
    ensures CanEnter(w, me)
    ensures w1 == InChat(Opened(w, me), me) && w2 == InFriends(w1, me, order)
    ensures Consistent(w1.social, now) && Consistent(w2.social, now)
    ensures Chats.Consistent(ChatOf(w1)) && Chats.Consistent(ChatOf(w2))
  {
    w1 := InChat(Opened(w, me), me);
    assert w1.social == Opened(w, me).social;
    OpenedFriends(w.social, me.uid, now);
    OpenedChat(w, me);
    CanRegisterNow(w1.social, me);
    w2 := InFriends(w1, me, order);
    RegisterIsConsistent(w1.social, me, order, now);
    SoundIsCanonical(w.social.tables);
    RegisterGrows(w1.social, me, order);
    FriendMailKeepsChat(w1, w2.social);
  }

  lemma EnterFrame(w: World, me: Entity, order: seq<Uid>)
    requires CanRegister(InChat(Opened(w, me), me).social, me)
    requires Enumerates(order, NewcomersFriends(w.social, me.uid))
    ensures var w' := Enter(w, me, order);
            && w'.entities == w.entities + {me} && w'.rooms == w.rooms
            && w'.social.registry == Added(w.social.registry, me) && w'.social.tables == w.social.tables
            && w'.social.lists.Keys == w.social.lists.Keys + {me.uid}
            && w'.social.mail.Keys == w.social.mail.Keys + {me.uid}
            && w'.social.buffers == w.social.buffers
  {
  }

  lemma EnterUsers(w: World, me: Entity, order: seq<Uid>)
    requires SameUsers(w) && Stranger(w, me) && HasNickname(w.social.tables, me.uid, me.name)
    requires CanRegister(InChat(Opened(w, me), me).social, me)
    requires Enumerates(order, NewcomersFriends(w.social, me.uid))
    ensures SameUsers(Enter(w, me, order))
  {
    EnterFrame(w, me, order);
    AddedUsers(w, me, Enter(w, me, order));
  }

  lemma AddedUsers(w: World, me: Entity, w': World)
    requires SameUsers(w) && Stranger(w, me) && HasNickname(w.social.tables, me.uid, me.name)
    requires w'.entities == w.entities + {me} && w'.social.tables == w.social.tables
    requires w'.social.registry == Added(w.social.registry, me)
    requires w'.social.lists.Keys == w.social.lists.Keys + {me.uid}
    requires w'.social.mail.Keys == w.social.mail.Keys + {me.uid}
    ensures SameUsers(w')
  {
    AddedIsIndexed(w.social.registry, me);
    assert RegistryAgrees(w'.social);
  }

  lemma EnterAgrees(w: World, me: Entity, order: seq<Uid>, now: int)
    requires Agrees(w, now) && HasNickname(w.social.tables, me.uid, me.name) && me.uid !in w.social.lists
    requires Enumerates(order, NewcomersFriends(w.social, me.uid))
    ensures CanEnter(w, me) && Agrees(Enter(w, me, order), now)
  {
    OfflineIsStranger(w, me);
    var w1, w2 := EnterSteps(w, me, order, now);
    EnterUsers(w, me, order);
    ConsistentIgnoresRegistry(ChatOf(w2), Added(w2.social.registry, me));
    assert ChatOf(Enter(w, me, order)) == ChatOf(w2).(registry := Added(w2.social.registry, me));
    RegistryKeepsFriends(w2.social, Added(w2.social.registry, me), now);
  }

  lemma RegistryKeepsFriends(s: Social, r: Registry, now: int)
    requires Consistent(s, now)
    ensures Consistent(s.(registry := r), now)
  {
    var s' := s.(registry := r);
    forall u <- s.lists
      ensures ViewAgrees(s', u)
    {
      assert ViewAgrees(s, u) && OnlineFriends(s', u) == OnlineFriends(s, u);
    }
  }

  /** A login mails friend packets only: to the newcomer from the beginning of his mail, and to others. */
  lemma EnterMail(w: World, me: Entity, order: seq<Uid>, now: int)
    requires Agrees(w, now) && HasNickname(w.social.tables, me.uid, me.name) && me.uid !in w.social.lists
    requires Enumerates(order, NewcomersFriends(w.social, me.uid))
    ensures CanEnter(w, me)
    ensures Grows(w.social.mail[me.uid := []], Enter(w, me, order).social.mail, {FromFriends})
  {
    OfflineIsStranger(w, me);
    var w1, w2 := EnterSteps(w, me, order, now);
    SoundIsCanonical(w.social.tables);
    RegisterGrows(w1.social, me, order);
  }

  // ---------------------------------------------------------------- Logout

  lemma LeaveFriends(w: World, me: Entity, now: int) returns (w2: World)
    requires Agrees(w, now) && me in w.entities
    ensures CanLeave(w, me) && w2 == OutOfFriends(OutOfRegistrar(w, me), me)
    ensures Consistent(w2.social, now) && Chats.Consistent(ChatOf(w2))
    ensures Grows(w.social.mail, w2.social.mail, {FromFriends})
    ensures w2.entities == w.entities && w2.rooms == w.rooms
  {
    KnownUser(w, me);
    var w1 := OutOfRegistrar(w, me);
    RegistryKeepsFriends(w.social, w1.social.registry, now);
    ConsistentIgnoresRegistry(ChatOf(w), w1.social.registry);
    assert ChatOf(w1) == ChatOf(w).(registry := w1.social.registry);
    w2 := OutOfFriends(w1, me);
    UnregisterIsConsistent(w1.social, me, now);
    UnregisterGrows(w1.social, me);
    FriendMailKeepsChat(w1, w2.social);
  }

  lemma LeaveChat(w: World, me: Entity, order: seq<Text>, now: int)
    requires Consistent(w.social, now) && Chats.Consistent(ChatOf(w)) && me in w.entities
    requires Enumerates(order, Chats.RoomsOf(ChatOf(w), me))
    ensures var w' := OutOfChat(w, me, order);
            && Consistent(w'.social, now) && Chats.Consistent(ChatOf(w'))
            && Grows(w.social.mail, w'.social.mail, {FromChat})
            && w'.entities == w.entities - {me}
            && w'.social == w.social.(mail := w'.social.mail)
  {
    var c := ChatOf(w);
    var w' := OutOfChat(w, me, order);
    Chats.UnregisterIsConsistent(c, me, order);
    Chats.LeaveRoomsKeepEntities(c, me, order);
    assert ChatOf(w') == Chats.UnregisterUser(c, me, order);
    LeaveRoomsGrows(c, me, order);
    ChatMailIsConsistent(w.social, w'.social.mail, now);
  }

  lemma SameRooms(c: Chats.Chat, c': Chats.Chat, me: Entity)
    requires c.rooms == c'.rooms
    ensures Chats.RoomsOf(c, me) == Chats.RoomsOf(c', me)
  {
  }

  lemma LeaveSteps(w: World, me: Entity, order: seq<Text>, now: int) returns (w2: World, w3: World)
    requires Agrees(w, now) && me in w.entities
    requires Enumerates(order, Chats.RoomsOf(ChatOf(w), me))
    ensures CanLeave(w, me)
    ensures w2 == OutOfFriends(OutOfRegistrar(w, me), me) && w3 == OutOfChat(w2, me, order)
    ensures Consistent(w3.social, now) && Chats.Consistent(ChatOf(w3))
    ensures Grows(w.social.mail, w2.social.mail, {FromFriends}) && Grows(w2.social.mail, w3.social.mail, {FromChat})
  {
    w2 := LeaveFriends(w, me, now);
    SameRooms(ChatOf(w), ChatOf(w2), me);
    LeaveChat(w2, me, order, now);
    w3 := OutOfChat(w2, me, order);
  }

  lemma ClosedFriends(s: Social, u: Uid, now: int)
    requires Consistent(s, now) && u !in s.lists
    ensures Consistent(s.(mail := s.mail - {u}), now)
  {
    ClosedReplay(s, u);
  }

  lemma ClosedReplay(s: Social, u: Uid)
    requires ReplayAgrees(s) && u !in s.lists
    ensures ReplayAgrees(s.(mail := s.mail - {u}))
  {
    var s' := s.(mail := s.mail - {u});
    forall v <- s.lists
      ensures ViewAgrees(s', v)
    {
      assert ViewAgrees(s, v);
    }
  }

  lemma ClosedChat(w: World, me: Entity)
    requires Chats.Consistent(ChatOf(w)) && forall e <- w.entities :: e.uid != me.uid
    ensures Chats.Consistent(ChatOf(Closed(w, me)))
  {
    var c := ChatOf(Closed(w, me));
    forall room <- c.rooms, e <- c.rooms[room]
      ensures Chats.ViewAgrees(c, room, e)
    {
      assert Chats.ViewAgrees(ChatOf(w), room, e) && e in w.entities;
    }
  }

  lemma LeaveFrame(w: World, me: Entity, order: seq<Text>)
    requires me.uid in w.social.lists
    ensures var w' := Leave(w, me, order);
            && w'.entities == w.entities - {me}
            && w'.social.registry == Dropped(w.social.registry, me) && w'.social.tables == w.social.tables
            && w'.social.lists == w.social.lists - {me.uid}
            && w'.social.mail.Keys == w.social.mail.Keys - {me.uid}
            && w'.social.buffers == w.social.buffers
  {
    var w2 := OutOfFriends(OutOfRegistrar(w, me), me);
    Chats.LeaveRoomsKeepEntities(ChatOf(w2), me, order);
    LeaveRoomsGrows(ChatOf(w2), me, order);
  }

  lemma LeaveUsers(w: World, me: Entity, order: seq<Text>)
    requires SameUsers(w) && me in w.entities
    ensures SameUsers(Leave(w, me, order))
  {
    LeaveFrame(w, me, order);
    var w' := Leave(w, me, order);
    DroppedIsIndexed(w.social.registry, me);
    assert RegistryAgrees(w'.social);
  }

  lemma LeaveAgrees(w: World, me: Entity, order: seq<Text>, now: int)
    requires Agrees(w, now) && me in w.entities
    requires Enumerates(order, Chats.RoomsOf(ChatOf(w), me))
    ensures CanLeave(w, me) && Agrees(Leave(w, me, order), now)
  {
    var w2, w3 := LeaveSteps(w, me, order, now);
    LeaveUsers(w, me, order);
    ClosedFriends(w3.social, me.uid, now);
    assert forall e <- w3.entities :: e.uid != me.uid by {
      LeaveLeavesOthers(w, me, order);
    }
    ClosedChat(w3, me);
  }

  lemma LeaveLeavesOthers(w: World, me: Entity, order: seq<Text>)
    requires SameUsers(w) && me in w.entities
    ensures forall e <- Leave(w, me, order).entities :: e.uid != me.uid
  {
    LeaveFrame(w, me, order);
    forall e <- w.entities | e.uid == me.uid
      ensures e == me
    {
      assert w.social.registry.byId[e.uid] == e;
    }
  }

  lemma GrowsElsewhere(a: Mail, b: Mail, u: Uid, senders: set<Sender>)
    requires Grows(a, b, senders)
    ensures Grows(a - {u}, b - {u}, senders)
  {
    forall v <- a - {u}
      ensures GrowsAt(a - {u}, b - {u}, v, senders)
    {
      assert GrowsAt(a, b, v, senders);
    }
  }

  lemma GrowsByMore(a: Mail, b: Mail, few: set<Sender>, more: set<Sender>)
    requires Grows(a, b, few) && few <= more
    ensures Grows(a, b, more)
  {
    forall v <- a
      ensures GrowsAt(a, b, v, more)
    {
      assert GrowsAt(a, b, v, few);
    }
  }

  /** A logout mails world packets to the others. */
  lemma LeaveMail(w: World, me: Entity, order: seq<Text>, now: int)
    requires Agrees(w, now) && me in w.entities
    requires Enumerates(order, Chats.RoomsOf(ChatOf(w), me))
    ensures Grows(w.social.mail - {me.uid}, Leave(w, me, order).social.mail, {FromFriends, FromChat})
  {
    var w2, w3 := LeaveSteps(w, me, order, now);
    var senders := {FromFriends, FromChat};
    GrowsByMore(w.social.mail, w2.social.mail, {FromFriends}, senders);
    GrowsByMore(w2.social.mail, w3.social.mail, {FromChat}, senders);
    GrowsTransitive(w.social.mail, w2.social.mail, w3.social.mail, senders);
    GrowsElsewhere(w.social.mail, w3.social.mail, me.uid, senders);
  }

  // ---------------------------------------------------------------- What exactly a login and a logout tell

  /** A login tells every friend who is online, and nobody else, that the newcomer is there; and it tells the
      newcomer of each of these friends once. */
  lemma LoginTells(w: World, me: Entity, order: seq<Uid>)
    requires CanEnter(w, me) && Enumerates(order, NewcomersFriends(w.social, me.uid))
    requires me.uid !in w.social.mail && me.uid !in FriendsOf(w.social.tables.friends, me.uid)
    ensures var mail := Enter(w, me, order).social.mail;
            && mail.Keys == w.social.mail.Keys + {me.uid}
            && |mail[me.uid]| == |order|
            && (forall i :: 0 <= i < |order| ==>
                  order[i] in w.social.registry.byId
                  && mail[me.uid][i] == FriendOnlineWhileYouLogin(w.social.registry.byId[order[i]].name))
            && (forall u <- w.social.mail ::
                  mail[u] == w.social.mail[u]
                           + if u in NewcomersFriends(w.social, me.uid) then [FriendLogin(me.name)] else [])
  {
    var s := InChat(Opened(w, me), me).social;
    assert s.registry == w.social.registry && s.mail == w.social.mail[me.uid := []];
    RegisterTells(s, me, order, Register(s, me, order).mail);
  }

  lemma RegisterTells(s: Social, me: Entity, order: seq<Uid>, mail: Mail)
    requires CanRegister(s, me) && Enumerates(order, NewcomersFriends(s, me.uid)) && s.mail[me.uid] == []
    requires me.uid !in NewcomersFriends(s, me.uid) && mail == Register(s, me, order).mail
    ensures mail.Keys == s.mail.Keys && mail[me.uid] == Greetings(s.registry, order)
    ensures forall u <- s.mail | u != me.uid ::
              mail[u] == s.mail[u] + if u in NewcomersFriends(s, me.uid) then [FriendLogin(me.name)] else []
  {
  }

  lemma {:induction false} SameFarewells(c: Chats.Chat, c': Chats.Chat, me: Entity, e: Entity, order: seq<Text>)
    requires c.rooms == c'.rooms
    ensures Chats.Farewells(c, me, e, order) == Chats.Farewells(c', me, e, order)
    decreases |order|
  {
    if |order| > 0 {
      SameFarewells(c, c', me, e, order[..|order| - 1]);
    }
  }

  lemma FriendLeftTells(w: World, me: Entity, u: Uid)
    requires me.uid in w.social.lists && u in w.social.mail && u in w.social.lists
    ensures var mail := OutOfFriends(OutOfRegistrar(w, me), me).social.mail;
            && u in mail
            && mail[u] == w.social.mail[u] + if u in w.social.lists[me.uid] then [FriendLeave(me.name)] else []
  {
  }

  lemma RoomsLeftTell(w: World, me: Entity, order: seq<Text>, e: Entity)
    requires Chats.Consistent(ChatOf(w)) && me in w.entities && e in w.entities && e.uid != me.uid
    requires Enumerates(order, Chats.RoomsOf(ChatOf(w), me))
    ensures var mail := Closed(OutOfChat(w, me, order), me).social.mail;
            && e.uid in w.social.mail && e.uid in mail
            && mail[e.uid] == w.social.mail[e.uid] + Chats.Farewells(ChatOf(w), me, e, order)
  {
    Chats.LogoutMail(ChatOf(w), me, order, e);
  }

  /** A logout tells every other user first that his friend left, if it is one, and then once for every room that they
      shared that the user left it, in the order in which the rooms are left. */
  lemma LogoutTells(w: World, me: Entity, order: seq<Text>, e: Entity, now: int)
    requires Agrees(w, now) && me in w.entities && e in w.entities && e != me
    requires Enumerates(order, Chats.RoomsOf(ChatOf(w), me))
    ensures me.uid in w.social.lists && e.uid in w.social.mail && e.uid in Leave(w, me, order).social.mail
    ensures Leave(w, me, order).social.mail[e.uid]
         == w.social.mail[e.uid]
          + (if e.uid in w.social.lists[me.uid] then [FriendLeave(me.name)] else [])
          + Chats.Farewells(ChatOf(w), me, e, order)
  {
    KnownUser(w, me);
    KnownUser(w, e);
    DistinctUsers(w, me, e);
    var w2 := LeaveFriends(w, me, now);
    assert Enumerates(order, Chats.RoomsOf(ChatOf(w2), me))
      && Chats.Farewells(ChatOf(w), me, e, order) == Chats.Farewells(ChatOf(w2), me, e, order) by {
      SameRooms(ChatOf(w), ChatOf(w2), me);
      SameFarewells(ChatOf(w), ChatOf(w2), me, e, order);
    }
    FriendLeftTells(w, me, e.uid);
    RoomsLeftTell(w2, me, order, e);
  }

  lemma DistinctUsers(w: World, me: Entity, e: Entity)
    requires SameUsers(w) && me in w.entities && e in w.entities && e != me
    ensures e.uid != me.uid
  {
    assert w.social.registry.byId[e.uid] == e && w.social.registry.byId[me.uid] == me;
  }

  // ---------------------------------------------------------------- Between the steps

  /** The asserts of a login hold exactly when the character is not in the world yet: that is what a second login
      of the same account would break. */
  lemma CanEnterExactlyWhenOffline(w: World, me: Entity, now: int)
    requires Agrees(w, now) && HasNickname(w.social.tables, me.uid, me.name)
    ensures CanEnter(w, me) <==> me.uid !in w.social.lists
  {
    if me.uid !in w.social.lists {
      OfflineIsStranger(w, me);
      var w1 := InChat(Opened(w, me), me);
      OpenedReplay(w.social, me.uid);
      CanRegisterNow(w1.social, me);
    }
  }

  lemma StillRegistered(w: World, w': World)
    requires Nested(w) && w.entities <= w'.entities
    requires w'.social.lists.Keys == w.social.lists.Keys
    requires w'.social.registry.byId.Keys <= w'.social.lists.Keys
    ensures Nested(w')
  {
  }

  /** During a login the users of the registrar are among those of the friend system, and these among those of
      the chat; the newcomer appears in the chat first and in the registrar last. */
  lemma LoginNests(w: World, me: Entity, order: seq<Uid>)
    requires SameUsers(w) && me.uid !in w.social.lists && CanRegister(InChat(Opened(w, me), me).social, me)
    requires Enumerates(order, NewcomersFriends(w.social, me.uid))
    ensures var w1 := InChat(Opened(w, me), me);
            Nested(w1) && me in w1.entities && me.uid !in w1.social.lists && me.uid !in w1.social.registry.byId
    ensures var w2 := InFriends(InChat(Opened(w, me), me), me, order);
            Nested(w2) && me.uid in w2.social.lists && me.uid !in w2.social.registry.byId
    ensures Nested(Enter(w, me, order)) && me.uid in Enter(w, me, order).social.registry.byId
  {
    SameUsersAreNested(w);
    var w1 := InChat(Opened(w, me), me);
    StillRegistered(w, w1);
    var w2 := InFriends(w1, me, order);
    forall u <- w2.social.lists
      ensures exists e <- w2.entities :: e.uid == u
    {
      if u != me.uid {
        assert u in w1.social.lists;
      }
    }
    StillRegistered(w2, Enter(w, me, order));
  }

  /** During a logout they nest in the same way: the registrar forgets the user first, the chat last. */
  lemma LogoutNests(w: World, me: Entity, order: seq<Text>)
    requires SameUsers(w) && me in w.entities
    ensures me.uid in w.social.lists
    ensures var w1 := OutOfRegistrar(w, me);
            Nested(w1) && me.uid !in w1.social.registry.byId && me.uid in w1.social.lists && me in w1.entities
    ensures var w2 := OutOfFriends(OutOfRegistrar(w, me), me);
            Nested(w2) && me.uid !in w2.social.lists && me in w2.entities
    ensures Nested(Leave(w, me, order)) && me !in Leave(w, me, order).entities
  {
    SameUsersAreNested(w);
    KnownUser(w, me);
    var w1 := OutOfRegistrar(w, me);
    StillRegistered(w, w1);
    var w2 := OutOfFriends(w1, me);
    forall u <- w2.social.lists
      ensures exists e <- w2.entities :: e.uid == u
    {
      assert u in w1.social.lists;
    }
    LeaveFrame(w, me, order);
    LeaveUsers(w, me, order);
    SameUsersAreNested(Leave(w, me, order));
  }

  lemma UndoneSocial(w: World, me: Entity, order: seq<Uid>)
    requires CanRegister(InChat(Opened(w, me), me).social, me) && Enumerates(order, NewcomersFriends(w.social, me.uid))
    requires me.uid !in w.social.lists && me.uid !in w.social.mail
    requires Dropped(Added(w.social.registry, me), me) == w.social.registry
    ensures var w1 := Enter(w, me, order);
            me.uid in w1.social.lists
    ensures var w' := Leave(Enter(w, me, order), me, []);
            && w'.rooms == w.rooms
            && w'.social == w.social.(mail := w'.social.mail) && w'.social.mail.Keys == w.social.mail.Keys
  {
    EnterFrame(w, me, order);
    var w1 := Enter(w, me, order);
    LeaveFrame(w1, me, []);
    NewcomerForgotten(w.social, me, order, InChat(Opened(w, me), me).social);
    var w' := Leave(w1, me, []);
    assert w'.social.lists == w.social.lists;
    assert w'.social.mail.Keys == w.social.mail.Keys;
  }

  /** A logout undoes a login: but for the mail, the world is as it was. */
  lemma LeaveUndoesEnter(w: World, me: Entity, order: seq<Uid>, now: int)
    requires Agrees(w, now) && Stranger(w, me) && HasNickname(w.social.tables, me.uid, me.name)
    requires Enumerates(order, NewcomersFriends(w.social, me.uid))
    ensures CanEnter(w, me) && me.uid in Enter(w, me, order).social.lists
    ensures Enumerates([], Chats.RoomsOf(ChatOf(Enter(w, me, order)), me))
    ensures var w' := Leave(Enter(w, me, order), me, []);
            && w'.entities == w.entities && w'.rooms == w.rooms
            && w'.social == w.social.(mail := w'.social.mail) && w'.social.mail.Keys == w.social.mail.Keys
  {
    CanEnterExactlyWhenOffline(w, me, now);
    assert Dropped(Added(w.social.registry, me), me) == w.social.registry by {
      AddedIsIndexed(w.social.registry, me);
    }
    UndoneSocial(w, me, order);
    UndoneEntities(w, me, order, Enter(w, me, order));
    NewcomerIsInNoRoom(w, me, Enter(w, me, order));
  }

  lemma UndoneEntities(w: World, me: Entity, order: seq<Uid>, w1: World)
    requires me !in w.entities && CanRegister(InChat(Opened(w, me), me).social, me)
    requires Enumerates(order, NewcomersFriends(w.social, me.uid)) && w1 == Enter(w, me, order)
    ensures w1.rooms == w.rooms && me.uid in w1.social.lists && Leave(w1, me, []).entities == w.entities
  {
    EnterFrame(w, me, order);
    LeaveFrame(w1, me, []);
  }

  lemma NewcomerIsInNoRoom(w: World, me: Entity, w1: World)
    requires Chats.Consistent(ChatOf(w)) && me !in w.entities && w1.rooms == w.rooms
    ensures Enumerates([], Chats.RoomsOf(ChatOf(w1), me))
  {
  }

  lemma NewcomerForgotten(s: Social, me: Entity, order: seq<Uid>, s1: Social)
    requires me.uid !in s.lists && s1 == s.(mail := s1.mail) && CanRegister(s1, me)
    requires Enumerates(order, NewcomersFriends(s1, me.uid))
    ensures Register(s1, me, order).lists - {me.uid} == s.lists
  {
  }
}
