/** The chat system as a function on its state, and what it keeps true. */
module Chats {
  import opened Basics
  import opened Protocol
  import opened WorldRegistrar

  /** Everything the chat system reads or writes.  `rooms` lists the participants of every room in the
      order in which they joined. */
  datatype Chat = Chat(registry: Registry, entities: set<Entity>, rooms: map<Text, seq<Entity>>, mail: Mail)

  function Members(s: Chat, room: Text): seq<Entity> {
    if room in s.rooms then s.rooms[room] else []
  }

  function UidsOf(es: seq<Entity>): set<Uid> {
    set e <- es :: e.uid
  }

  // ---------------------------------------------------------------- Operations

  function RegisterUser(s: Chat, me: Entity): Chat {
    s.(entities := s.entities + {me})
  }

  function JoinRoom(s: Chat, me: Entity, room: Text): Chat {
    var es := Members(s, room);
    if me in es then s
    else s.(rooms := s.rooms[room := es + [me]],
            mail := Deliver(s.mail, UidsOf(es + [me]), UserJoinedChat(room, me.name)))
  }

  /** The leaver is gone before anybody is told, so he is not told; an empty room is destroyed. */
  function LeaveRoom(s: Chat, me: Entity, room: Text): Chat {
    var es := Without(Members(s, room), me);
    if me !in Members(s, room) then s
    else if |es| == 0 then s.(rooms := s.rooms - {room})
    else s.(rooms := s.rooms[room := es],
            mail := Deliver(s.mail, UidsOf(es), UserLeftChat(room, me.name)))
  }

  /** Leaves the rooms of `order` one after the other. */
  function LeaveRooms(s: Chat, me: Entity, order: seq<Text>): Chat {
    if |order| == 0 then s else LeaveRoom(LeaveRooms(s, me, order[..|order| - 1]), me, order[|order| - 1])
  }

  function RoomsOf(s: Chat, me: Entity): set<Text> {
    set room <- s.rooms | me in s.rooms[room]
  }

  function UnregisterUser(s: Chat, me: Entity, order: seq<Text>): Chat {
    var s1 := LeaveRooms(s, me, order);
    s1.(entities := s1.entities - {me})
  }

  function BroadcastMessage(s: Chat, me: Entity, room: Text, message: Text): Chat {
    if me !in Members(s, room) then s
    else s.(mail := Deliver(s.mail, UidsOf(Members(s, room)), ChatMsg(room, me.name, message)))
  }

  function Whisper(s: Chat, me: Entity, recipient: Text, message: Text): Chat {
    if recipient !in s.registry.byName || s.registry.byName[recipient] == me then s
    else s.(mail := Tell(s.mail, s.registry.byName[recipient].uid, WhisperMessage(me.name, message)))
  }

  /** std::to_string of a size. */
  function Decimal(n: nat): Text {
    var digit := (48 + n % 10) as Byte;
    if n < 10 then [digit] else Decimal(n / 10) + [digit]
  }

  function Census(s: Chat, room: Text): Packet {
    ChatMsg(room,
            Ascii("[[BROADCAST - ") + room + Ascii("]]"),
            Ascii("There are currently: ") + Decimal(|Members(s, room)|) + Ascii(" users on the chat!"))
  }

  /** The timer's message to every room, in the order of the iteration. */
  function PeriodicBroadcast(s: Chat, order: seq<Text>): Chat {
    if |order| == 0 then s else
    var s1 := PeriodicBroadcast(s, order[..|order| - 1]);
    var room := order[|order| - 1];
    s1.(mail := Deliver(s1.mail, UidsOf(Members(s, room)), Census(s, room)))
  }

  // ---------------------------------------------------------------- The client's view

  /** What a client believes about a room.  It starts again whenever he joins, for nobody tells him
      what happens in a room that he has left. */
  function View(log: seq<Packet>, self: Text, room: Text): set<Text> {
    if |log| == 0 then {} else ViewStep(View(log[..|log| - 1], self, room), log[|log| - 1], self, room)
  }

  function ViewStep(view: set<Text>, p: Packet, self: Text, room: Text): set<Text> {
    match p
    case UserJoinedChat(r, who) => if r != room then view else if who == self then {self} else view + {who}
    case UserLeftChat(r, who) => if r != room then view else view - {who}
    case _ => view
  }

  lemma ViewOne(log: seq<Packet>, p: Packet, self: Text, room: Text)
    ensures View(log + [p], self, room) == ViewStep(View(log, self, room), p, self, room)
  {
    assert (log + [p])[..|log|] == log;
  }

  function NamesOf(es: seq<Entity>): set<Text> {
    set e <- es :: e.name
  }

  /** The names of `e` and of everybody who joined after him. */
  function Since(es: seq<Entity>, e: Entity): set<Text> {
    if |es| == 0 then {}
    else if es[0] == e then NamesOf(es)
    else Since(es[1..], e)
  }

  // ---------------------------------------------------------------- Invariants

  /** No room is empty or lists somebody twice, and every participant is registered. */
  ghost predicate RoomsAgree(s: Chat) {
    forall room <- s.rooms ::
      && s.rooms[room] != [] && NoDup(s.rooms[room])
      && forall e <- s.rooms[room] :: e in s.entities
  }

  ghost predicate Distinct(es: set<Entity>) {
    forall e <- es, f <- es :: e.uid == f.uid || e.name == f.name ==> e == f
  }

  ghost predicate ViewAgrees(s: Chat, room: Text, e: Entity)
    requires room in s.rooms
  {
    e.uid in s.mail && View(s.mail[e.uid], e.name, room) == Since(s.rooms[room], e)
  }

  ghost predicate ViewsAgree(s: Chat) {
    forall room <- s.rooms :: forall e <- s.rooms[room] :: ViewAgrees(s, room, e)
  }

  ghost predicate Consistent(s: Chat) {
    && Distinct(s.entities)
    && (forall e <- s.entities :: e.uid in s.mail)
    && RoomsAgree(s)
    && ViewsAgree(s)
  }

  predicate DistinctNames(es: seq<Entity>) {
    forall i, j :: 0 <= i < j < |es| ==> es[i].name != es[j].name
  }

  lemma TailIsDistinct(es: seq<Entity>)
    requires |es| > 0 && DistinctNames(es)
    ensures DistinctNames(es[1..]) && es[0].name !in NamesOf(es[1..])
  {
    assert forall k | 0 <= k < |es[1..]| :: es[1..][k] == es[k + 1];
  }

  lemma {:induction false} SinceFollowsOrder(es: seq<Entity>, i: nat, j: nat)
    requires DistinctNames(es) && i < |es| && j < |es|
    ensures es[j].name in Since(es, es[i]) <==> i <= j
    decreases |es|
  {
    if i > 0 {
      TailIsDistinct(es);
      assert es[0] != es[i] && es[1..][i - 1] == es[i];
      if j > 0 {
        SinceFollowsOrder(es[1..], i - 1, j - 1);
      } else {
        SinceIsPart(es[1..], es[i]);
      }
    }
  }

  /** The later joiner is in the earlier one's view, and not the reverse. */
  lemma SinceIsJoinOrder(es: seq<Entity>, i: nat, j: nat)
    requires NoDup(es) && Distinct(set e <- es) && i < |es| && j < |es|
    ensures es[j].name in Since(es, es[i]) <==> i <= j
  {
    forall a, b | 0 <= a < b < |es|
      ensures es[a].name != es[b].name
    {
      assert es[a] in (set e <- es) && es[b] in (set e <- es);
    }
    SinceFollowsOrder(es, i, j);
  }

  lemma {:induction false} SinceIsPart(es: seq<Entity>, e: Entity)
    ensures Since(es, e) <= NamesOf(es)
    decreases |es|
  {
    if es != [] && es[0] != e {
      SinceIsPart(es[1..], e);
    }
  }

  lemma {:induction false} SinceJoin(es: seq<Entity>, e: Entity, me: Entity)
    requires e in es
    ensures Since(es + [me], e) == Since(es, e) + {me.name}
    decreases |es|
  {
    if es[0] == e {
      assert NamesOf(es + [me]) == NamesOf(es) + {me.name};
    } else {
      SinceJoin(es[1..], e, me);
      assert (es + [me])[1..] == es[1..] + [me];
    }
  }

  lemma {:induction false} SinceMyself(es: seq<Entity>, me: Entity)
    requires me !in es
    ensures Since(es + [me], me) == {me.name}
    decreases |es|
  {
    if es == [] {
      assert [] + [me] == [me];
    } else {
      SinceMyself(es[1..], me);
      assert (es + [me])[1..] == es[1..] + [me];
    }
  }

  ghost predicate OnlyNameIs(es: seq<Entity>, me: Entity) {
    forall e <- es :: e.name == me.name ==> e == me
  }

  lemma {:induction false} NamesWithout(es: seq<Entity>, me: Entity)
    requires OnlyNameIs(es, me)
    ensures NamesOf(Without(es, me)) == NamesOf(es) - {me.name}
    decreases |es|
  {
    if es != [] {
      NamesWithout(es[1..], me);
      assert NamesOf(es) == {es[0].name} + NamesOf(es[1..]) by {
        assert es == [es[0]] + es[1..];
      }
      if es[0] != me {
        assert Without(es, me) == [es[0]] + Without(es[1..], me);
        assert NamesOf(Without(es, me)) == {es[0].name} + NamesOf(Without(es[1..], me));
      }
    }
  }

  lemma {:induction false} SinceLeave(es: seq<Entity>, e: Entity, me: Entity)
    requires OnlyNameIs(es, me) && e != me
    ensures Since(Without(es, me), e) == Since(es, e) - {me.name}
    decreases |es|
  {
    if es != [] {
      if es[0] == e {
        NamesWithout(es, me);
      } else {
        SinceLeave(es[1..], e, me);
        if es[0] != me {
          assert Without(es, me)[1..] == Without(es[1..], me);
        }
      }
    }
  }

  // ---------------------------------------------------------------- Register, join, leave

  lemma RegisterIsConsistent(s: Chat, me: Entity)
    requires Consistent(s) && me.uid in s.mail
    requires forall e <- s.entities :: e.uid != me.uid && e.name != me.name
    ensures Consistent(RegisterUser(s, me))
  {
    var s' := RegisterUser(s, me);
    forall room <- s'.rooms, e <- s'.rooms[room]
      ensures ViewAgrees(s', room, e)
    {
      assert ViewAgrees(s, room, e);
    }
  }

  /** Nobody else is called like me. */
  ghost predicate Unmistakable(s: Chat, me: Entity) {
    forall e <- s.entities :: e.name == me.name ==> e == me
  }

  lemma JoinResult(s: Chat, me: Entity, room: Text, e: Entity)
    requires me !in Members(s, room) && e in Members(s, room) + [me] && e.uid in s.mail
    ensures var s' := JoinRoom(s, me, room);
            && room in s'.rooms && s'.rooms[room] == Members(s, room) + [me]
            && e.uid in s'.mail && s'.mail[e.uid] == s.mail[e.uid] + [UserJoinedChat(room, me.name)]
  {
  }

  /** The join as it appears in another room. */
  lemma JoinElsewhere(s: Chat, me: Entity, room: Text, r: Text, e: Entity)
    requires r != room && r in s.rooms && ViewAgrees(s, r, e)
    ensures r in JoinRoom(s, me, room).rooms && ViewAgrees(JoinRoom(s, me, room), r, e)
  {
    ViewOne(s.mail[e.uid], UserJoinedChat(room, me.name), e.name, r);
  }

  lemma JoinView(s: Chat, me: Entity, room: Text, r: Text, e: Entity)
    requires Unmistakable(s, me) && me.uid in s.mail && e in s.entities && e.uid in s.mail
    requires me !in Members(s, room)
    requires r in JoinRoom(s, me, room).rooms && e in JoinRoom(s, me, room).rooms[r]
    requires r in s.rooms && e in s.rooms[r] ==> ViewAgrees(s, r, e)
    ensures ViewAgrees(JoinRoom(s, me, room), r, e)
  {
    if r != room {
      JoinElsewhere(s, me, room, r, e);
    } else {
      JoinResult(s, me, room, e);
      ViewOne(s.mail[e.uid], UserJoinedChat(room, me.name), e.name, room);
      if e == me {
        SinceMyself(Members(s, room), me);
      } else {
        SinceJoin(Members(s, room), e, me);
      }
    }
  }

  lemma JoinIsConsistent(s: Chat, me: Entity, room: Text)
    requires Consistent(s) && me in s.entities
    ensures Consistent(JoinRoom(s, me, room))
  {
    if me !in Members(s, room) {
      JoinRoomsAgree(s, me, room, JoinRoom(s, me, room));
      JoinViewsAgree(s, me, room, JoinRoom(s, me, room));
    }
  }

  lemma JoinRoomsAgree(s: Chat, me: Entity, room: Text, s': Chat)
    requires RoomsAgree(s) && me in s.entities && me !in Members(s, room) && s' == JoinRoom(s, me, room)
    ensures RoomsAgree(s') && s'.entities == s.entities && s'.mail.Keys == s.mail.Keys
  {
  }

  lemma JoinViewsAgree(s: Chat, me: Entity, room: Text, s': Chat)
    requires Distinct(s.entities) && (forall e <- s.entities :: e.uid in s.mail) && RoomsAgree(s) && ViewsAgree(s)
    requires me in s.entities && me !in Members(s, room) && s' == JoinRoom(s, me, room)
    ensures ViewsAgree(s')
  {
    JoinRoomsAgree(s, me, room, s');
    forall r <- s'.rooms, e <- s'.rooms[r]
      ensures ViewAgrees(s', r, e)
    {
      if r in s.rooms && e in s.rooms[r] {
        assert ViewAgrees(s, r, e);
      }
      JoinView(s, me, room, r, e);
    }
  }

  lemma LeaveResult(s: Chat, me: Entity, room: Text, e: Entity)
    requires me in Members(s, room) && e in Members(s, room) && e != me && e.uid in s.mail
    ensures var s' := LeaveRoom(s, me, room);
            && room in s'.rooms && s'.rooms[room] == Without(s.rooms[room], me)
            && e.uid in s'.mail && s'.mail[e.uid] == s.mail[e.uid] + [UserLeftChat(room, me.name)]
  {
    assert e in Without(Members(s, room), me);
    assert e.uid in UidsOf(Without(Members(s, room), me));
  }

  /** The leave as it reaches somebody who stays in the room. */
  lemma LeaveHeard(s: Chat, me: Entity, room: Text, e: Entity)
    requires me in Members(s, room) && OnlyNameIs(Members(s, room), me) && e != me && e in Members(s, room)
    requires ViewAgrees(s, room, e)
    ensures room in LeaveRoom(s, me, room).rooms && ViewAgrees(LeaveRoom(s, me, room), room, e)
  {
    LeaveResult(s, me, room, e);
    var mail := LeaveRoom(s, me, room).mail;
    assert View(mail[e.uid], e.name, room) == Since(s.rooms[room], e) - {me.name} by {
      ViewOne(s.mail[e.uid], UserLeftChat(room, me.name), e.name, room);
    }
    SinceLeave(s.rooms[room], e, me);
  }

  /** The leave as it appears in another room. */
  lemma LeaveElsewhere(s: Chat, me: Entity, room: Text, r: Text, e: Entity)
    requires r != room && r in s.rooms && ViewAgrees(s, r, e)
    ensures r in LeaveRoom(s, me, room).rooms && ViewAgrees(LeaveRoom(s, me, room), r, e)
  {
    ViewOne(s.mail[e.uid], UserLeftChat(room, me.name), e.name, r);
  }

  lemma LeaveView(s: Chat, me: Entity, room: Text, r: Text, e: Entity)
    requires me in Members(s, room) && OnlyNameIs(Members(s, room), me)
    requires r in LeaveRoom(s, me, room).rooms && e in LeaveRoom(s, me, room).rooms[r]
    requires r in s.rooms && e in s.rooms[r] && ViewAgrees(s, r, e)
    ensures ViewAgrees(LeaveRoom(s, me, room), r, e)
  {
    if r == room {
      LeaveHeard(s, me, room, e);
    } else {
      LeaveElsewhere(s, me, room, r, e);
    }
  }

  lemma LeaveIsConsistent(s: Chat, me: Entity, room: Text)
    requires Consistent(s) && me in s.entities
    ensures Consistent(LeaveRoom(s, me, room))
  {
    if me in Members(s, room) {
      var s' := LeaveRoom(s, me, room);
      forall r <- s'.rooms, e <- s'.rooms[r]
        ensures ViewAgrees(s', r, e)
      {
        assert ViewAgrees(s, r, e);
        LeaveView(s, me, room, r, e);
      }
    }
  }

  // ---------------------------------------------------------------- Logout

  lemma {:induction false} LeaveRoomsIsConsistent(s: Chat, me: Entity, order: seq<Text>)
    requires Consistent(s) && me in s.entities
    ensures Consistent(LeaveRooms(s, me, order))
    decreases |order|
  {
    if order != [] {
      var init := order[..|order| - 1];
      LeaveRoomsKeepEntities(s, me, init);
      LeaveRoomsIsConsistent(s, me, init);
      LeaveIsConsistent(LeaveRooms(s, me, init), me, order[|order| - 1]);
    }
  }

  /** The rooms when `me` has left those of `gone`: exactly the ones that he leaves empty are destroyed,
      and no other membership changes. */
  function RoomsWithout(s: Chat, me: Entity, gone: set<Text>): map<Text, seq<Entity>> {
    map room <- s.rooms | room in gone ==> Without(s.rooms[room], me) != [] ::
      if room in gone then Without(s.rooms[room], me) else s.rooms[room]
  }

  /** The notices that `e` gets: one for every room of `order` that he shares with `me`. */
  function Farewells(s: Chat, me: Entity, e: Entity, order: seq<Text>): seq<Packet> {
    if |order| == 0 then [] else
    var room := order[|order| - 1];
    Farewells(s, me, e, order[..|order| - 1]) +
    if e in Members(s, room) then [UserLeftChat(room, me.name)] else []
  }

  lemma LeaveOneMore(s: Chat, me: Entity, gone: set<Text>, s1: Chat, room: Text)
    requires s1.rooms == RoomsWithout(s, me, gone) && room !in gone && me in Members(s, room)
    ensures Members(s1, room) == Members(s, room)
    ensures LeaveRoom(s1, me, room).rooms == RoomsWithout(s, me, gone + {room})
  {
  }

  function Rooms(order: seq<Text>): set<Text> {
    set room <- order
  }

  lemma {:induction false} LeaveRoomsEmptiesRooms(s: Chat, me: Entity, order: seq<Text>)
    requires NoDup(order) && forall room <- order :: me in Members(s, room)
    ensures LeaveRooms(s, me, order).rooms == RoomsWithout(s, me, Rooms(order))
    decreases |order|
  {
    if order == [] {
      assert Rooms([]) == {};
    } else {
      var init, room := order[..|order| - 1], order[|order| - 1];
      assert order == init + [room] && room in order;
      assert Rooms(order) == Rooms(init) + {room};
      LeaveRoomsEmptiesRooms(s, me, init);
      LeaveOneMore(s, me, Rooms(init), LeaveRooms(s, me, init), room);
    }
  }

  /** The mail for those who stay in `room` reaches `e` exactly when he is one of them. */
  predicate Hears(s: Chat, me: Entity, room: Text, e: Entity) {
    e.uid in UidsOf(Without(Members(s, room), me)) <==> e in Members(s, room) && e != me
  }

  lemma LeaveMail(s: Chat, me: Entity, room: Text, e: Entity)
    requires e.uid in s.mail && me in Members(s, room) && Hears(s, me, room, e)
    ensures LeaveRoom(s, me, room).mail.Keys == s.mail.Keys
    ensures LeaveRoom(s, me, room).mail[e.uid] == s.mail[e.uid] +
              if e in Members(s, room) && e != me then [UserLeftChat(room, me.name)] else []
  {
  }

  lemma {:induction false} LeaveRoomsMail(s: Chat, me: Entity, order: seq<Text>, e: Entity)
    requires NoDup(order) && e.uid in s.mail
    requires forall room <- order :: me in Members(s, room) && Hears(s, me, room, e)
    ensures LeaveRooms(s, me, order).mail.Keys == s.mail.Keys
    ensures LeaveRooms(s, me, order).mail[e.uid] == s.mail[e.uid] + if e == me then [] else Farewells(s, me, e, order)
    decreases |order|
  {
    if order != [] {
      var init, room := order[..|order| - 1], order[|order| - 1];
      assert room in order;
      LeaveRoomsMail(s, me, init, e);
      var s1 := LeaveRooms(s, me, init);
      assert Members(s1, room) == Members(s, room) by {
        LeaveRoomsEmptiesRooms(s, me, init);
        LeaveOneMore(s, me, Rooms(init), s1, room);
      }
      LeaveMail(s1, me, room, e);
    }
  }

  /** Exactly one notice for every shared room that was left, and nothing else. */
  lemma {:induction false} OneFarewellPerRoom(s: Chat, me: Entity, e: Entity, order: seq<Text>, room: Text)
    requires NoDup(order)
    ensures multiset(Farewells(s, me, e, order))[UserLeftChat(room, me.name)]
         == if room in order && e in Members(s, room) then 1 else 0
    ensures forall p <- Farewells(s, me, e, order) :: p.UserLeftChat? && p.who == me.name
    decreases |order|
  {
    if order != [] {
      var init, last := order[..|order| - 1], order[|order| - 1];
      OneFarewellPerRoom(s, me, e, init, room);
      assert order == init + [last];
    }
  }

  /** Logout, for any set of joined rooms and any order of the loop: the user is in no room any more,
      exactly the rooms that he leaves empty are destroyed, and no other membership changes. */
  lemma LogoutRooms(s: Chat, me: Entity, order: seq<Text>)
    requires RoomsAgree(s) && Enumerates(order, RoomsOf(s, me))
    ensures var s' := UnregisterUser(s, me, order);
            && s'.entities == s.entities - {me}
            && (forall room :: room in s'.rooms <==> room in s.rooms && Without(s.rooms[room], me) != [])
            && (forall room <- s'.rooms :: room in s.rooms && s'.rooms[room] == Without(s.rooms[room], me))
  {
    LeaveRoomsEmptiesRooms(s, me, order);
    LeaveRoomsKeepEntities(s, me, order);
    forall room <- s.rooms
      ensures me !in s.rooms[room] ==> Without(s.rooms[room], me) == s.rooms[room]
      ensures room in Rooms(order) <==> me in s.rooms[room]
    {
      WithoutStranger(s.rooms[room], me);
      assert room in RoomsOf(s, me) <==> me in s.rooms[room];
    }
    assert UnregisterUser(s, me, order).rooms == RoomsWithout(s, me, Rooms(order));
  }

  lemma {:induction false} LeaveRoomsKeepEntities(s: Chat, me: Entity, order: seq<Text>)
    ensures LeaveRooms(s, me, order).entities == s.entities && LeaveRooms(s, me, order).registry == s.registry
    decreases |order|
  {
    if order != [] {
      LeaveRoomsKeepEntities(s, me, order[..|order| - 1]);
    }
  }

  /** Every other user gets one user_left_chat for every room they shared; the leaver gets nothing. */
  lemma LogoutMail(s: Chat, me: Entity, order: seq<Text>, e: Entity)
    requires Consistent(s) && me in s.entities && e in s.entities && Enumerates(order, RoomsOf(s, me))
    ensures var s' := UnregisterUser(s, me, order);
            && s'.mail.Keys == s.mail.Keys
            && s'.mail[e.uid] == s.mail[e.uid] + if e == me then [] else Farewells(s, me, e, order)
  {
    forall room <- order
      ensures me in Members(s, room) && Hears(s, me, room, e)
    {
      assert room in RoomsOf(s, me);
    }
    LeaveRoomsMail(s, me, order, e);
  }

  lemma {:induction false} WithoutStranger(es: seq<Entity>, me: Entity)
    ensures me !in es ==> Without(es, me) == es
    decreases |es|
  {
    if es != [] {
      WithoutStranger(es[1..], me);
    }
  }

  lemma UnregisterIsConsistent(s: Chat, me: Entity, order: seq<Text>)
    requires Consistent(s) && me in s.entities && Enumerates(order, RoomsOf(s, me))
    ensures Consistent(UnregisterUser(s, me, order))
  {
    LeaveRoomsIsConsistent(s, me, order);
    LogoutRooms(s, me, order);
    var s1, s' := LeaveRooms(s, me, order), UnregisterUser(s, me, order);
    forall room <- s'.rooms, e <- s'.rooms[room]
      ensures ViewAgrees(s', room, e)
    {
      assert ViewAgrees(s1, room, e);
    }
  }

  // ---------------------------------------------------------------- Messages

  predicate IsMembership(p: Packet) {
    p.UserJoinedChat? || p.UserLeftChat?
  }

  lemma {:induction false} ViewKeeps(log: seq<Packet>, more: seq<Packet>, self: Text, room: Text)
    requires forall p <- more :: !IsMembership(p)
    ensures View(log + more, self, room) == View(log, self, room)
    decreases |more|
  {
    if more == [] {
      assert log + more == log;
    } else {
      var init, p := more[..|more| - 1], more[|more| - 1];
      assert p in more;
      ViewKeeps(log, init, self, room);
      ViewOne(log + init, p, self, room);
      assert log + more == log + init + [p];
    }
  }

  lemma MessageIsConsistent(s: Chat, to: set<Uid>, p: Packet)
    requires Consistent(s) && !IsMembership(p)
    ensures Consistent(s.(mail := Deliver(s.mail, to, p)))
  {
    var s' := s.(mail := Deliver(s.mail, to, p));
    forall room <- s.rooms, e <- s.rooms[room]
      ensures ViewAgrees(s', room, e)
    {
      assert ViewAgrees(s, room, e);
      ViewOne(s.mail[e.uid], p, e.name, room);
    }
  }

  lemma {:induction false} PeriodicBroadcastIsConsistent(s: Chat, order: seq<Text>)
    requires Consistent(s)
    ensures Consistent(PeriodicBroadcast(s, order))
    ensures PeriodicBroadcast(s, order) == s.(mail := PeriodicBroadcast(s, order).mail)
    decreases |order|
  {
    if order != [] {
      var init, room := order[..|order| - 1], order[|order| - 1];
      PeriodicBroadcastIsConsistent(s, init);
      MessageIsConsistent(PeriodicBroadcast(s, init), UidsOf(Members(s, room)), Census(s, room));
    }
  }

  /** What the other systems send does not touch the rooms' views. */
  lemma OtherMailIsConsistent(s: Chat, mail: Mail)
    requires Consistent(s) && Grows(s.mail, mail, {FromFriends})
    ensures Consistent(s.(mail := mail))
  {
    var s' := s.(mail := mail);
    forall room <- s.rooms, e <- s.rooms[room]
      ensures ViewAgrees(s', room, e)
    {
      assert ViewAgrees(s, room, e) && GrowsAt(s.mail, mail, e.uid, {FromFriends});
      var more := mail[e.uid][|s.mail[e.uid]|..];
      assert mail[e.uid] == s.mail[e.uid] + more;
      ViewKeeps(s.mail[e.uid], more, e.name, room);
    }
  }

  // ---------------------------------------------------------------- Who hears what

  lemma InRoomByUid(s: Chat, room: Text, e: Entity)
    requires Consistent(s) && e in s.entities
    ensures e.uid in UidsOf(Members(s, room)) <==> e in Members(s, room)
  {
    forall x <- Members(s, room)
      ensures x in s.entities
    {
    }
  }

  /** A message reaches exactly the participants of the room, the sender included, if the sender is one of them. */
  lemma MessageReaches(s: Chat, me: Entity, room: Text, message: Text, e: Entity)
    requires Consistent(s) && e in s.entities
    ensures var s' := BroadcastMessage(s, me, room, message);
            && e.uid in s'.mail
            && s'.mail[e.uid] == s.mail[e.uid] +
                 if me in Members(s, room) && e in Members(s, room) then [ChatMsg(room, me.name, message)] else []
  {
    InRoomByUid(s, room, e);
  }

  /** A whisper reaches exactly the user of that name, unless he whispers to himself. */
  lemma WhisperReaches(s: Chat, me: Entity, recipient: Text, message: Text, e: Entity)
    requires Consistent(s) && e in s.entities
    requires forall x <- s.entities :: x.name in s.registry.byName && s.registry.byName[x.name] == x
    requires recipient in s.registry.byName ==>
               s.registry.byName[recipient] in s.entities && s.registry.byName[recipient].name == recipient
    ensures var s' := Whisper(s, me, recipient, message);
            && e.uid in s'.mail
            && s'.mail[e.uid] == s.mail[e.uid] +
                 if e.name == recipient && e != me then [WhisperMessage(me.name, message)] else []
  {
  }

  /** What the timer sends to `e`: the census of every room of `order` that he is in. */
  function Censuses(s: Chat, e: Entity, order: seq<Text>): seq<Packet> {
    if |order| == 0 then [] else
    var room := order[|order| - 1];
    Censuses(s, e, order[..|order| - 1]) + if e in Members(s, room) then [Census(s, room)] else []
  }

  lemma DeliveredTo(mail: Mail, to: set<Uid>, p: Packet, u: Uid, told: bool)
    requires u in mail && (u in to <==> told)
    ensures Deliver(mail, to, p).Keys == mail.Keys
    ensures Deliver(mail, to, p)[u] == mail[u] + if told then [p] else []
  {
  }

  lemma {:induction false} CensusesReach(s: Chat, order: seq<Text>, e: Entity)
    requires e.uid in s.mail
    requires forall room :: e.uid in UidsOf(Members(s, room)) <==> e in Members(s, room)
    ensures var mail := PeriodicBroadcast(s, order).mail;
            mail.Keys == s.mail.Keys && mail[e.uid] == s.mail[e.uid] + Censuses(s, e, order)
    decreases |order|
  {
    if |order| > 0 {
      var init, room := order[..|order| - 1], order[|order| - 1];
      CensusesReach(s, init, e);
      DeliveredTo(PeriodicBroadcast(s, init).mail, UidsOf(Members(s, room)), Census(s, room), e.uid,
                  e in Members(s, room));
    }
  }

  lemma BroadcastReaches(s: Chat, order: seq<Text>, e: Entity)
    requires Consistent(s) && e in s.entities
    ensures var s' := PeriodicBroadcast(s, order);
            s'.mail.Keys == s.mail.Keys && s'.mail[e.uid] == s.mail[e.uid] + Censuses(s, e, order)
  {
    forall room
      ensures e.uid in UidsOf(Members(s, room)) <==> e in Members(s, room)
    {
      InRoomByUid(s, room, e);
    }
    CensusesReach(s, order, e);
  }

  lemma {:induction false} WithoutLast(es: seq<Entity>, me: Entity)
    requires me !in es
    ensures Without(es + [me], me) == es
    decreases |es|
  {
    if |es| > 0 {
      WithoutLast(es[1..], me);
      assert (es + [me])[1..] == es[1..] + [me];
      assert es == [es[0]] + es[1..];
    } else {
      assert es + [me] == [me] && [me][1..] == [];
    }
  }

  /** Leaving undoes joining: the rooms are as before, and a room that was created is destroyed. */
  lemma LeaveUndoesJoin(s: Chat, me: Entity, room: Text)
    requires RoomsAgree(s) && me !in Members(s, room)
    ensures LeaveRoom(JoinRoom(s, me, room), me, room).rooms == s.rooms
  {
    WithoutLast(Members(s, room), me);
    var s1 := JoinRoom(s, me, room);
    assert Members(s1, room) == Members(s, room) + [me];
    if room in s.rooms {
      assert s.rooms[room := s.rooms[room]] == s.rooms;
    }
  }
}
