/** The chat system as the object the server runs: rooms are objects that users and the room index
    refer to, and the two directions of the relation are kept by hand. */
module ChatSystem {
  import opened Basics
  import opened Protocol
  import opened WorldRegistrar
  import opened Chats

  class Chatroom {
    const roomName: Text
    var participants: set<Entity>

    constructor (name: Text)
      ensures roomName == name && participants == {}
    {
      roomName, participants := name, {};
    }
  }

  // ---------------------------------------------------------------- The two-way relation

  type RoomIndex = map<Text, Chatroom>

  type Users = map<Entity, set<Chatroom>>

  type JoinOrders = map<Text, seq<Entity>>

  /** The relation between the room index, the participants of every room and the rooms of every
      user, while the memberships of `left` have ended on the side of the room only. */
  predicate Linked(active: RoomIndex, joined: JoinOrders, users: Users, left: set<(Entity, Chatroom)>) {
    && joined.Keys == active.Keys
    // every room is filed under its own name
    && (forall n <- active :: active[n].roomName == n)
    // every participant of a live room is registered and has the room in his set
    && (forall n <- active :: forall e <- joined[n] :: e in users && active[n] in users[e])
    // every room in the set of a user is alive and lists him
    && (forall e <- users :: forall r <- users[e] ::
          (e, r) in left || (r.roomName in active && active[r.roomName] == r && e in joined[r.roomName]))
  }

  lemma LinkedCreate(active: RoomIndex, joined: JoinOrders, users: Users, r: Chatroom)
    requires Linked(active, joined, users, {}) && r.roomName !in active
    ensures Linked(active[r.roomName := r], joined[r.roomName := []], users, {})
  {
  }

  lemma LinkedEnter(active: RoomIndex, joined: JoinOrders, users: Users, me: Entity, r: Chatroom)
    requires Linked(active, joined, users, {}) && me in users
    requires r.roomName in active && active[r.roomName] == r
    ensures Linked(active, joined[r.roomName := joined[r.roomName] + [me]], users[me := users[me] + {r}], {})
  {
  }

  /** Leaving a room on the side of the room only. */
  lemma LinkedLeave(active: RoomIndex, joined: JoinOrders, users: Users, left: set<(Entity, Chatroom)>, me: Entity,
                    r: Chatroom)
    requires Linked(active, joined, users, left)
    requires r.roomName in active && active[r.roomName] == r
    ensures Linked(active, joined[r.roomName := Without(joined[r.roomName], me)], users, left + {(me, r)})
  {
  }

  lemma LinkedDestroy(active: RoomIndex, joined: JoinOrders, users: Users, left: set<(Entity, Chatroom)>, room: Text)
    requires Linked(active, joined, users, left) && room in active && joined[room] == []
    ensures Linked(active - {room}, joined - {room}, users, left)
  {
  }

  /** The side of the user catches up. */
  lemma LinkedForget(active: RoomIndex, joined: JoinOrders, users: Users, me: Entity, r: Chatroom)
    requires Linked(active, joined, users, {(me, r)}) && me in users
    requires r.roomName in active && active[r.roomName] == r ==> me !in joined[r.roomName]
    ensures Linked(active, joined, users[me := users[me] - {r}], {})
  {
  }

  lemma LinkedUnregister(active: RoomIndex, joined: JoinOrders, users: Users, left: set<(Entity, Chatroom)>, me: Entity)
    requires Linked(active, joined, users, left) && me in users
    requires left == set r <- users[me] :: (me, r)
    requires forall n <- active :: me !in joined[n]
    ensures Linked(active, joined, users - {me}, {})
  {
  }

  // ---------------------------------------------------------------- Fan-out

  function Uids(es: set<Entity>): set<Uid> {
    set e <- es :: e.uid
  }

  function Who(order: seq<Entity>): set<Entity> {
    set e <- order
  }

  /** Everybody has an open outbox, and his own. */
  ghost predicate Connected(open: set<Uid>, es: set<Entity>) {
    && (forall e <- es :: e.uid in open)
    && (forall e <- es, f <- es :: e.uid == f.uid ==> e == f)
  }

  lemma AnnounceOneMore(mail: Mail, to: set<Entity>, rest: set<Entity>, e: Entity, p: Packet)
    requires rest <= to && e in rest && Connected(mail.Keys, to)
    ensures Tell(Deliver(mail, Uids(to - rest), p), e.uid, p) == Deliver(mail, Uids(to - (rest - {e})), p)
  {
    assert to - (rest - {e}) == (to - rest) + {e};
    assert Uids((to - rest) + {e}) == Uids(to - rest) + {e.uid};
    assert e.uid !in Uids(to - rest);
  }

  lemma SameRecipients(order: seq<Entity>)
    ensures Uids(Who(order)) == UidsOf(order)
  {
  }

  lemma WithoutIsMinus(order: seq<Entity>, e: Entity)
    ensures Who(Without(order, e)) == Who(order) - {e}
    ensures Without(order, e) == [] <==> Who(order) - {e} == {}
  {
    var rest := Without(order, e);
    assert rest != [] ==> rest[0] in rest && rest[0] in Who(order) - {e};
    assert forall x <- Who(order) - {e} :: x in rest;
  }

  /** The rooms of one index are in the other, under the same names. */
  predicate PartOf(some: RoomIndex, all: RoomIndex) {
    forall n <- some :: n in all && some[n] == all[n]
  }

  /** Every live room was alive before or is new. */
  twostate predicate OldOrNew(chat: ChatSystem)
    reads chat
  {
    forall r <- chat.activeChatrooms.Values :: r in old(chat.activeChatrooms.Values) || fresh(r)
  }

  function RoomNames(rooms: set<Chatroom>): set<Text> {
    set r <- rooms :: r.roomName
  }

  function Left(me: Entity, rooms: set<Chatroom>): set<(Entity, Chatroom)> {
    set r <- rooms :: (me, r)
  }

  lemma MyRoomNames(active: RoomIndex, s: Chat, users: Users, me: Entity)
    requires Linked(active, s.rooms, users, {}) && me in users
    ensures RoomNames(users[me]) == RoomsOf(s, me)
  {
    forall n <- RoomsOf(s, me)
      ensures n in RoomNames(users[me])
    {
      assert active[n] in users[me];
    }
  }

  /** The next room of the logout loop is alive and lists me, although rooms of mine may be destroyed. */
  lemma NextRoom(active: RoomIndex, joined: JoinOrders, users: Users, me: Entity, rest: set<Chatroom>, room: Chatroom)
    requires me in users && rest <= users[me] && room in rest
    requires Linked(active, joined, users, Left(me, users[me] - rest))
    ensures room.roomName in active && active[room.roomName] == room && me in joined[room.roomName]
    ensures RoomNames(rest - {room}) == RoomNames(rest) - {room.roomName}
    ensures Left(me, users[me] - (rest - {room})) == Left(me, users[me] - rest) + {(me, room)}
  {
    forall r <- rest
      ensures r.roomName in active && active[r.roomName] == r && me in joined[r.roomName]
    {
      assert (me, r) !in Left(me, users[me] - rest);
    }
  }

  /** After the loop no room lists me. */
  lemma GoneFromRooms(s: Chat, me: Entity, order: seq<Text>)
    requires Enumerates(order, RoomsOf(s, me))
    ensures forall n <- LeaveRooms(s, me, order).rooms :: me !in LeaveRooms(s, me, order).rooms[n]
  {
    assert forall room <- order :: room in RoomsOf(s, me);
    LeaveRoomsEmptiesRooms(s, me, order);
    var rooms := RoomsWithout(s, me, Rooms(order));
    forall n <- rooms
      ensures me !in rooms[n]
    {
      assert me in s.rooms[n] ==> n in RoomsOf(s, me);
    }
  }

  /** Nobody is counted twice. */
  lemma {:induction false} CountIsLength(order: seq<Entity>)
    requires NoDup(order)
    ensures |Who(order)| == |order|
    decreases |order|
  {
    if order != [] {
      CountIsLength(order[1..]);
      assert order == [order[0]] + order[1..];
      assert Who(order) == {order[0]} + Who(order[1..]);
    }
  }

  lemma SameEntry(m: JoinOrders, room: Text)
    requires room in m
    ensures m[room := m[room]] == m
  {
  }

  lemma LastRemoval(m: JoinOrders, room: Text, es: seq<Entity>)
    ensures m[room := es] - {room} == m - {room}
  {
  }

  lemma LastEntry(m: JoinOrders, room: Text, es: seq<Entity>, fs: seq<Entity>)
    ensures m[room := es][room := fs] == m[room := fs]
  {
  }

  lemma LeftIsOut(s: Chat, me: Entity, room: Text)
    ensures room in LeaveRoom(s, me, room).rooms ==> me !in LeaveRoom(s, me, room).rooms[room]
  {
  }

  class ChatSystem {
    const onlinePlayerRegistry: Registrar
    const outboxes: Outboxes
    /** For every registered user the rooms that he is in. */
    var entities: Users
    var activeChatrooms: RoomIndex
    /** The participants of every room in join order. */
    ghost var joined: JoinOrders

    ghost function State(): Chat
      reads this, onlinePlayerRegistry, outboxes
    {
      Chat(onlinePlayerRegistry.State(), entities.Keys, joined, outboxes.mail)
    }

    /** The join orders list exactly the participants of the rooms. */
    ghost predicate Mirrored()
      reads this, activeChatrooms.Values
    {
      && joined.Keys == activeChatrooms.Keys
      && forall n <- activeChatrooms :: activeChatrooms[n].participants == Who(joined[n])
    }

    /** A user is in the participants of a room exactly when that live room is in his own set. */
    ghost predicate Valid()
      reads this, activeChatrooms.Values
    {
      Mirrored() && Linked(activeChatrooms, joined, entities, {})
    }

    constructor (registry: Registrar, outboxes: Outboxes)
      ensures Valid() && onlinePlayerRegistry == registry && this.outboxes == outboxes
      ensures State() == Chat(registry.State(), {}, map[], outboxes.mail)
      ensures activeChatrooms == map[]
    {
      onlinePlayerRegistry, this.outboxes := registry, outboxes;
      entities, activeChatrooms, joined := map[], map[], map[];
    }

    method RegisterMe(me: Entity)
      requires Valid() && me !in entities
      modifies this`entities
      ensures Valid() && State() == RegisterUser(old(State()), me)
    {
      entities := entities[me := {}];
    }

    /** One packet to every participant, whatever the order of the loop. */
    method Announce(to: set<Entity>, p: Packet)
      requires Connected(outboxes.mail.Keys, to)
      modifies outboxes
      ensures outboxes.mail == Deliver(old(outboxes.mail), Uids(to), p)
    {
      ghost var mail := outboxes.mail;
      var rest := to;
      while rest != {}
        invariant rest <= to && outboxes.mail == Deliver(mail, Uids(to - rest), p)
        decreases rest
      {
        var e :| e in rest;
        AnnounceOneMore(mail, to, rest, e, p);
        rest := rest - {e};
        outboxes.Send(e.uid, p);
      }
      assert to - rest == to;
    }

    /** The room is there, possibly new and still empty. */
    ghost predicate Found(s: Chat, room: Text)
      reads this, onlinePlayerRegistry, outboxes
    {
      State() == s.(rooms := s.rooms[room := Members(s, room)])
    }

    /** Finds the room or creates it. */
    method FindOrCreate(room: Text, ghost me: Entity) returns (r: Chatroom)
      requires Valid()
      modifies this`activeChatrooms, this`joined
      ensures Valid() && r.roomName == room && Found(old(State()), room)
      ensures activeChatrooms == old(activeChatrooms)[room := r]
      ensures if room in old(activeChatrooms) then r == old(activeChatrooms)[room] else fresh(r)
      ensures me in r.participants <==> me in Members(old(State()), room)
    {
      if room !in activeChatrooms {
        r := new Chatroom(room);
        LinkedCreate(activeChatrooms, joined, entities, r);
        activeChatrooms, joined := activeChatrooms[room := r], joined[room := []];
      }
      r := activeChatrooms[room];
    }

    /** Adds me on the side of the room. */
    method AddParticipant(me: Entity, r: Chatroom, ghost s: Chat)
      requires Valid() && me in entities
      requires r.roomName in activeChatrooms && activeChatrooms[r.roomName] == r && me !in r.participants
      requires Found(s, r.roomName)
      modifies this`joined, r
      ensures Mirrored() && Linked(activeChatrooms, joined, entities[me := entities[me] + {r}], {})
      ensures Appended(s, me, r.roomName)
      ensures r.participants == Who(joined[r.roomName]) && r.participants <= entities.Keys
    {
      LinkedEnter(activeChatrooms, joined, entities, me, r);
      r.participants := r.participants + {me};
      LastEntry(s.rooms, r.roomName, Members(s, r.roomName), Members(s, r.roomName) + [me]);
      joined := joined[r.roomName := joined[r.roomName] + [me]];
    }

    /** Adds me on the side of the room, tells everybody in it, and then adds the room on my side. */
    method Enter(me: Entity, r: Chatroom, ghost s: Chat)
      requires Valid() && me in entities && Connected(outboxes.mail.Keys, entities.Keys)
      requires r.roomName in activeChatrooms && activeChatrooms[r.roomName] == r && me !in r.participants
      requires Found(s, r.roomName) && me !in Members(s, r.roomName)
      modifies this`joined, this`entities, r, outboxes
      ensures Valid() && State() == JoinRoom(s, me, r.roomName)
    {
      assert r !in entities[me];
      AddParticipant(me, r, s);
      TellEverybody(me, r, s);
      AddRoom(me, r);
    }

    /** The room is not in my own set yet. */
    method AddRoom(me: Entity, r: Chatroom)
      requires me in entities && r !in entities[me]
      requires Mirrored() && Linked(activeChatrooms, joined, entities[me := entities[me] + {r}], {})
      modifies this`entities
      ensures Valid() && State() == old(State())
    {
      entities := entities[me := entities[me] + {r}];
      assert entities.Keys == old(entities.Keys);
    }

    /** I am among the participants, and nobody has been told yet. */
    ghost predicate Appended(s: Chat, me: Entity, room: Text)
      reads this, onlinePlayerRegistry, outboxes
    {
      State() == s.(rooms := s.rooms[room := Members(s, room) + [me]])
    }

    method TellEverybody(me: Entity, r: Chatroom, ghost s: Chat)
      requires Connected(outboxes.mail.Keys, entities.Keys) && r.participants <= entities.Keys
      requires Appended(s, me, r.roomName) && me !in Members(s, r.roomName)
      requires r.participants == Who(joined[r.roomName])
      modifies outboxes
      ensures State() == JoinRoom(s, me, r.roomName)
    {
      SameRecipients(joined[r.roomName]);
      Announce(r.participants, UserJoinedChat(r.roomName, me.name));
    }

    lemma FoundIsJoined(s: Chat, me: Entity, room: Text)
      requires Found(s, room) && me in Members(s, room)
      ensures State() == JoinRoom(s, me, room)
    {
      SameEntry(s.rooms, room);
    }

    method JoinChatroom(me: Entity, room: Text)
      requires Valid() && me in entities && Connected(outboxes.mail.Keys, entities.Keys)
      modifies this, activeChatrooms.Values, outboxes
      ensures Valid() && State() == JoinRoom(old(State()), me, room)
      ensures room in activeChatrooms && activeChatrooms == old(activeChatrooms)[room := activeChatrooms[room]]
      ensures OldOrNew(this)
    {
      ghost var s := State();
      var r := FindOrCreate(room, me);
      assert OldOrNew(this);
      if me in r.participants {
        FoundIsJoined(s, me, room);
        return;
      }
      Enter(me, r, s);
    }

    /** Only the side of the room; the caller takes the room out of my own set. */
    method UnregisterFromChatroom(me: Entity, room: Chatroom, ghost left: set<(Entity, Chatroom)>)
      requires Mirrored() && Linked(activeChatrooms, joined, entities, left)
      requires Connected(outboxes.mail.Keys, entities.Keys)
      requires room.roomName in activeChatrooms && activeChatrooms[room.roomName] == room
      requires me in entities && me in room.participants && room in entities[me]
      modifies this`activeChatrooms, this`joined, room, outboxes
      ensures Mirrored() && Linked(activeChatrooms, joined, entities, left + {(me, room)})
      ensures State() == LeaveRoom(old(State()), me, room.roomName)
      ensures activeChatrooms == old(activeChatrooms) || activeChatrooms == old(activeChatrooms) - {room.roomName}
    {
      ghost var s := State();
      EraseParticipant(me, room, left);
      DestroyOrTell(me, room, left + {(me, room)}, s);
    }

    method DestroyOrTell(me: Entity, room: Chatroom, ghost left: set<(Entity, Chatroom)>, ghost s: Chat)
      requires Mirrored() && Linked(activeChatrooms, joined, entities, left)
      requires Connected(outboxes.mail.Keys, entities.Keys) && room.participants <= entities.Keys
      requires room.roomName in activeChatrooms && activeChatrooms[room.roomName] == room
      requires Erased(s, me, room.roomName) && (|room.participants| == 0 <==> joined[room.roomName] == [])
      modifies this`activeChatrooms, this`joined, outboxes
      ensures Mirrored() && Linked(activeChatrooms, joined, entities, left)
      ensures State() == LeaveRoom(s, me, room.roomName)
      ensures activeChatrooms == old(activeChatrooms) || activeChatrooms == old(activeChatrooms) - {room.roomName}
    {
      if |room.participants| == 0 {
        DestroyRoom(me, room, left, s);
      } else {
        TellTheRest(me, room, s);
      }
    }

    /** I am out of the room, and nobody has been told yet. */
    ghost predicate Erased(s: Chat, me: Entity, room: Text)
      reads this, onlinePlayerRegistry, outboxes
    {
      me in Members(s, room) && State() == s.(rooms := s.rooms[room := Without(s.rooms[room], me)])
    }

    method DestroyRoom(me: Entity, room: Chatroom, ghost left: set<(Entity, Chatroom)>, ghost s: Chat)
      requires Mirrored() && Linked(activeChatrooms, joined, entities, left)
      requires room.roomName in activeChatrooms && Erased(s, me, room.roomName) && joined[room.roomName] == []
      modifies this`activeChatrooms, this`joined
      ensures Mirrored() && Linked(activeChatrooms, joined, entities, left)
      ensures State() == LeaveRoom(s, me, room.roomName)
      ensures activeChatrooms == old(activeChatrooms) - {room.roomName}
    {
      LinkedDestroy(activeChatrooms, joined, entities, left, room.roomName);
      LastRemoval(s.rooms, room.roomName, joined[room.roomName]);
      activeChatrooms, joined := activeChatrooms - {room.roomName}, joined - {room.roomName};
    }

    method TellTheRest(me: Entity, room: Chatroom, ghost s: Chat)
      requires Mirrored() && Connected(outboxes.mail.Keys, entities.Keys) && room.participants <= entities.Keys
      requires room.roomName in activeChatrooms && activeChatrooms[room.roomName] == room
      requires Erased(s, me, room.roomName) && joined[room.roomName] != []
      modifies outboxes
      ensures State() == LeaveRoom(s, me, room.roomName)
    {
      SameRecipients(joined[room.roomName]);
      Announce(room.participants, UserLeftChat(room.roomName, me.name));
    }

    method EraseParticipant(me: Entity, room: Chatroom, ghost left: set<(Entity, Chatroom)>)
      requires Mirrored() && Linked(activeChatrooms, joined, entities, left)
      requires room.roomName in activeChatrooms && activeChatrooms[room.roomName] == room && me in room.participants
      modifies this`joined, room
      ensures Mirrored() && Linked(activeChatrooms, joined, entities, left + {(me, room)})
      ensures joined == old(joined)[room.roomName := Without(old(joined)[room.roomName], me)]
      ensures Erased(old(State()), me, room.roomName)
      ensures room.participants == Who(joined[room.roomName]) && room.participants <= entities.Keys
      ensures |room.participants| == 0 <==> joined[room.roomName] == []
    {
      LinkedLeave(activeChatrooms, joined, entities, left, me, room);
      WithoutIsMinus(joined[room.roomName], me);
      EraseFrom(room, me);
    }

    method EraseFrom(room: Chatroom, me: Entity)
      requires Mirrored() && forall n <- activeChatrooms :: activeChatrooms[n].roomName == n
      requires room.roomName in activeChatrooms && activeChatrooms[room.roomName] == room
      modifies this`joined, room
      ensures Mirrored() && joined == old(joined)[room.roomName := Without(old(joined)[room.roomName], me)]
    {
      WithoutIsMinus(joined[room.roomName], me);
      room.participants := room.participants - {me};
      joined := joined[room.roomName := Without(joined[room.roomName], me)];
    }

    method LeaveChatroom(me: Entity, room: Text)
      requires Valid() && me in entities && Connected(outboxes.mail.Keys, entities.Keys)
      modifies this, activeChatrooms.Values, outboxes
      ensures Valid() && State() == LeaveRoom(old(State()), me, room)
      ensures OldOrNew(this)
    {
      if room !in activeChatrooms {
        return;
      }
      var r := activeChatrooms[room];
      if me !in r.participants {
        return;
      }
      assert r in activeChatrooms.Values && r in entities[me];
      LeaveOne(me, r);
    }

    /** First the side of the room, then mine. */
    method LeaveOne(me: Entity, r: Chatroom)
      requires Valid() && me in entities && Connected(outboxes.mail.Keys, entities.Keys)
      requires r.roomName in activeChatrooms && activeChatrooms[r.roomName] == r
      requires me in r.participants && r in entities[me]
      modifies this, r, outboxes
      ensures Valid() && State() == LeaveRoom(old(State()), me, r.roomName)
      ensures activeChatrooms == old(activeChatrooms) || activeChatrooms == old(activeChatrooms) - {r.roomName}
    {
      LeftIsOut(State(), me, r.roomName);
      UnregisterFromChatroom(me, r, {});
      assert {} + {(me, r)} == {(me, r)};
      RemoveRoom(me, r);
    }

    method RemoveRoom(me: Entity, r: Chatroom)
      requires me in entities && Mirrored() && Linked(activeChatrooms, joined, entities, {(me, r)})
      requires r.roomName in joined ==> me !in joined[r.roomName]
      modifies this`entities
      ensures Valid() && State() == old(State())
    {
      LinkedForget(activeChatrooms, joined, entities, me, r);
      entities := entities[me := entities[me] - {r}];
      assert entities.Keys == old(entities.Keys);
    }

    /** The logout loop has left the rooms of `order`; those of `rest` are still to be visited.  My own
        set keeps the rooms that I have left, some of them destroyed, until I am erased as a whole. */
    ghost predicate InLogout(s: Chat, me: Entity, rest: set<Chatroom>, order: seq<Text>)
      reads this, activeChatrooms.Values, onlinePlayerRegistry, outboxes
    {
      && me in entities && rest <= entities[me]
      && Visiting(order, RoomNames(rest), RoomsOf(s, me))
      && State() == LeaveRooms(s, me, order)
      && Mirrored() && Linked(activeChatrooms, joined, entities, Left(me, entities[me] - rest))
    }

    lemma StartLogout(me: Entity)
      requires Valid() && me in entities
      ensures InLogout(State(), me, entities[me], [])
      ensures forall r <- entities[me] :: r in activeChatrooms.Values && me in Members(State(), r.roomName)
    {
      MyRoomNames(activeChatrooms, State(), entities, me);
      assert Left(me, entities[me] - entities[me]) == {};
      forall r <- entities[me]
        ensures r in activeChatrooms.Values
      {
        assert r.roomName in activeChatrooms && activeChatrooms[r.roomName] == r;
      }
    }

    lemma EndLogout(s: Chat, me: Entity, order: seq<Text>)
      requires InLogout(s, me, {}, order)
      ensures Enumerates(order, RoomsOf(s, me))
      ensures Mirrored() && Linked(activeChatrooms, joined, entities - {me}, {})
    {
      assert RoomNames({}) == {};
      VisitDone(order, RoomsOf(s, me));
      GoneFromRooms(s, me, order);
      assert entities[me] - {} == entities[me];
      LinkedUnregister(activeChatrooms, joined, entities, Left(me, entities[me]), me);
    }

    /** The body of the logout loop. */
    method LeaveNext(me: Entity, room: Chatroom, ghost s: Chat, ghost rest: set<Chatroom>, ghost order: seq<Text>)
      requires InLogout(s, me, rest, order) && room in rest && Connected(outboxes.mail.Keys, entities.Keys)
      requires me in Members(s, room.roomName)
      modifies this`activeChatrooms, this`joined, room, outboxes
      ensures InLogout(s, me, rest - {room}, order + [room.roomName]) && outboxes.mail.Keys == old(outboxes.mail.Keys)
      ensures activeChatrooms == old(activeChatrooms) || activeChatrooms == old(activeChatrooms) - {room.roomName}
    {
      NextRoom(activeChatrooms, joined, entities, me, rest, room);
      VisitStep(order, RoomNames(rest), RoomsOf(s, me), room.roomName);
      UnregisterFromChatroom(me, room, Left(me, entities[me] - rest));
      assert (order + [room.roomName])[..|order|] == order;
    }

    /** The logout loop; `order` is the order in which it happens to visit my rooms. */
    method LeaveAllRooms(me: Entity) returns (ghost order: seq<Text>)
      requires Valid() && me in entities && Connected(outboxes.mail.Keys, entities.Keys)
      modifies this`activeChatrooms, this`joined, activeChatrooms.Values, outboxes
      ensures InLogout(old(State()), me, {}, order) && PartOf(activeChatrooms, old(activeChatrooms))
    {
      ghost var s, rooms := State(), activeChatrooms;
      order := [];
      var rest := entities[me];
      StartLogout(me);
      while rest != {}
        invariant InLogout(s, me, rest, order)
        invariant outboxes.mail.Keys == s.mail.Keys && PartOf(activeChatrooms, rooms)
        invariant forall r <- rest :: r in rooms.Values && me in Members(s, r.roomName)
        decreases rest
      {
        var room :| room in rest;
        LeaveNext(me, room, s, rest, order);
        order := order + [room.roomName];
        rest := rest - {room};
      }
    }

    method UnregisterMe(me: Entity) returns (ghost order: seq<Text>)
      requires Valid() && me in entities && Connected(outboxes.mail.Keys, entities.Keys)
      modifies this, activeChatrooms.Values, outboxes
      ensures Enumerates(order, RoomsOf(old(State()), me))
      ensures Valid() && State() == UnregisterUser(old(State()), me, order)
      ensures OldOrNew(this)
    {
      order := LeaveAllRooms(me);
      assert OldOrNew(this);
      EndLogout(old(State()), me, order);
      EraseUser(me);
    }

    method EraseUser(me: Entity)
      requires Mirrored() && Linked(activeChatrooms, joined, entities - {me}, {})
      modifies this`entities
      ensures Valid() && State() == old(State()).(entities := old(State()).entities - {me})
    {
      entities := entities - {me};
    }

    /** Every participant hears it, the sender included; outsiders cannot send. */
    method BroadcastTo(me: Entity, room: Text, message: Text)
      requires Valid() && me in entities && Connected(outboxes.mail.Keys, entities.Keys)
      modifies outboxes
      ensures Valid() && State() == BroadcastMessage(old(State()), me, room, message)
    {
      if room !in activeChatrooms {
        return;
      }
      var r := activeChatrooms[room];
      if me !in r.participants {
        return;
      }
      assert r in entities[me];
      SameRecipients(joined[room]);
      Announce(r.participants, ChatMsg(r.roomName, me.name, message));
    }

    method WhisperTo(me: Entity, recipient: Text, message: Text)
      requires Valid() && me in entities && Connected(outboxes.mail.Keys, entities.Keys)
      requires forall n <- onlinePlayerRegistry.nameToCharacter :: onlinePlayerRegistry.nameToCharacter[n] in entities
      modifies outboxes
      ensures Valid() && State() == Whisper(old(State()), me, recipient, message)
    {
      var his := onlinePlayerRegistry.FindOnlinePlayerByName(recipient);
      if his.None? || his.value == me {
        return;
      }
      assert his.value in entities;
      outboxes.Send(his.value.uid, WhisperMessage(me.name, message));
    }

    /** The body of the periodic timer. */
    method Census(room: Text)
      requires Valid() && Connected(outboxes.mail.Keys, entities.Keys) && room in activeChatrooms
      requires NoDup(joined[room])
      modifies outboxes
      ensures outboxes.mail == Deliver(old(outboxes.mail), UidsOf(joined[room]), Chats.Census(old(State()), room))
    {
      var r := activeChatrooms[room];
      SameRecipients(joined[room]);
      CountIsLength(joined[room]);
      Announce(r.participants,
               ChatMsg(r.roomName, Ascii("[[BROADCAST - ") + r.roomName + Ascii("]]"),
                       Ascii("There are currently: ") + Decimal(|r.participants|) + Ascii(" users on the chat!")));
    }

    /** The rooms of `order` have heard their census; those of `rest` have not. */
    ghost predicate InBroadcast(s: Chat, rest: set<Text>, order: seq<Text>)
      reads this, onlinePlayerRegistry, outboxes
    {
      && rest <= joined.Keys && Visiting(order, rest, joined.Keys)
      && State() == PeriodicBroadcast(s, order) && outboxes.mail.Keys == s.mail.Keys
    }

    method CensusNext(room: Text, ghost s: Chat, ghost rest: set<Text>, ghost order: seq<Text>)
      requires Valid() && Connected(outboxes.mail.Keys, entities.Keys) && RoomsAgree(s) && s.rooms == joined
      requires InBroadcast(s, rest, order) && room in rest
      modifies outboxes
      ensures InBroadcast(s, rest - {room}, order + [room])
    {
      VisitStep(order, rest, joined.Keys, room);
      Census(room);
      assert (order + [room])[..|order|] == order;
    }

    method PeriodicBroadcastTo() returns (ghost order: seq<Text>)
      requires Valid() && Connected(outboxes.mail.Keys, entities.Keys) && RoomsAgree(State())
      modifies outboxes
      ensures Enumerates(order, joined.Keys)
      ensures Valid() && State() == PeriodicBroadcast(old(State()), order)
    {
      ghost var s := State();
      order := [];
      var rest := activeChatrooms.Keys;
      while rest != {}
        invariant InBroadcast(s, rest, order)
        decreases rest
      {
        var room :| room in rest;
        CensusNext(room, s, rest, order);
        order := order + [room];
        rest := rest - {room};
      }
      VisitDone(order, joined.Keys);
    }
  }

  /** The relation between rooms and users, as seen from both sides. */
  ghost predicate TwoWay(chat: ChatSystem)
    reads chat, chat.activeChatrooms.Values
  {
    // a user is among the participants of a live room exactly when that room is in his own set
    && (forall n <- chat.activeChatrooms, e ::
          (e in chat.activeChatrooms[n].participants
           <==> e in chat.entities && chat.activeChatrooms[n] in chat.entities[e]))
    // the key of every room is its name, and no room is empty
    && (forall n <- chat.activeChatrooms ::
          chat.activeChatrooms[n].roomName == n && chat.activeChatrooms[n].participants != {})
    // no user's set holds a destroyed room
    && (forall e <- chat.entities, r <- chat.entities[e] ::
          r.roomName in chat.activeChatrooms && chat.activeChatrooms[r.roomName] == r)
  }

  /** A chat that keeps its invariants is in such a relation. */
  lemma ValidIsTwoWay(chat: ChatSystem)
    requires chat.Valid() && RoomsAgree(chat.State())
    ensures TwoWay(chat)
  {
    forall n <- chat.activeChatrooms
      ensures chat.activeChatrooms[n].participants != {}
    {
      assert chat.joined[n][0] in chat.activeChatrooms[n].participants;
    }
  }
}
