/** What joining and leaving a room bring about, and what the timer says. */
module ChatEffects {
  import opened Basics
  import opened Protocol
  import opened Chats

  /** Only this room and the mail have changed. */
  predicate OnlyRoom(s: Chat, s': Chat, room: Text) {
    && s' == s.(rooms := s'.rooms, mail := s'.mail)
    && s'.mail.Keys == s.mail.Keys
    && s'.rooms - {room} == s.rooms - {room}
  }

  /** Exactly these users were sent the packet, and nobody was sent anything else. */
  predicate OnlyTheyHear(s: Chat, mail': Mail, es: seq<Entity>, p: Packet) {
    forall e <- s.entities :: Gets(s.mail, mail', e.uid, if e in es then [p] else [])
  }

  lemma DeliveredToThem(s: Chat, es: seq<Entity>, p: Packet)
    requires Distinct(s.entities) && (forall e <- s.entities :: e.uid in s.mail) && forall e <- es :: e in s.entities
    ensures OnlyTheyHear(s, Deliver(s.mail, UidsOf(es), p), es, p)
  {
    forall e <- s.entities
      ensures e.uid in UidsOf(es) <==> e in es
    {
    }
  }

  lemma HeardNothing(s: Chat, es: seq<Entity>, p: Packet)
    requires (forall e <- s.entities :: e.uid in s.mail) && |es| == 0
    ensures OnlyTheyHear(s, s.mail, es, p)
  {
  }

  // ---------------------------------------------------------------- Joining

  /** Whoever joins is the last of the participants, and every participant hears it, himself included. */
  lemma JoinJoins(s: Chat, me: Entity, room: Text)
    requires Consistent(s) && me in s.entities && me !in Members(s, room)
    ensures var s' := JoinRoom(s, me, room);
            && OnlyRoom(s, s', room) && room in s'.rooms && s'.rooms[room] == Members(s, room) + [me]
            && OnlyTheyHear(s, s'.mail, s'.rooms[room], UserJoinedChat(room, me.name))
  {
    DeliveredToThem(s, Members(s, room) + [me], UserJoinedChat(room, me.name));
  }

  lemma JoinAgain(s: Chat, me: Entity, room: Text)
    requires me in Members(s, room)
    ensures JoinRoom(s, me, room) == s
  {
  }

  // ---------------------------------------------------------------- Leaving

  /** The list without its k-th element. */
  function AllBut<T>(s: seq<T>, k: nat): seq<T>
    requires k < |s|
  {
    s[..k] + s[k + 1..]
  }

  lemma {:induction false} WithoutIsOneLess(es: seq<Entity>, me: Entity, k: nat)
    requires NoDup(es) && k < |es| && es[k] == me
    ensures Without(es, me) == AllBut(es, k)
    decreases |es|
  {
    var rest := es[1..];
    assert NoDup(rest);
    if k == 0 {
      WithoutStranger(rest, me);
    } else {
      assert rest[k - 1] == me;
      WithoutIsOneLess(rest, me, k - 1);
      assert AllBut(es, k) == [es[0]] + AllBut(rest, k - 1);
    }
  }

  /** Whoever leaves is taken out of the participants; the others, in their order, are the room, and hear it; without
      others the room is gone.  The leaver hears nothing. */
  lemma LeaveLeaves(s: Chat, me: Entity, room: Text, k: nat)
    requires Consistent(s) && me in s.entities && k < |Members(s, room)| && Members(s, room)[k] == me
    ensures var s', others := LeaveRoom(s, me, room), AllBut(Members(s, room), k);
            && OnlyRoom(s, s', room) && me !in others
            && (room in s'.rooms <==> |others| > 0) && (|others| > 0 ==> s'.rooms[room] == others)
            && OnlyTheyHear(s, s'.mail, others, UserLeftChat(room, me.name))
  {
    var others := Without(Members(s, room), me);
    WithoutIsOneLess(Members(s, room), me, k);
    if |others| > 0 {
      DeliveredToThem(s, others, UserLeftChat(room, me.name));
    } else {
      HeardNothing(s, others, UserLeftChat(room, me.name));
    }
  }

  lemma LeaveOutside(s: Chat, me: Entity, room: Text)
    requires me !in Members(s, room)
    ensures LeaveRoom(s, me, room) == s
  {
  }

  // ---------------------------------------------------------------- The census

  predicate AllDigits(digits: Text) {
    forall i :: 0 <= i < |digits| ==> 48 <= digits[i] <= 57
  }

  /** The number that decimal digits stand for. */
  function NumberOf(digits: Text): int {
    if |digits| == 0 then 0 else 10 * NumberOf(digits[..|digits| - 1]) + digits[|digits| - 1] as int - 48
  }

  /** The digits of a count stand for it, without a leading zero. */
  lemma {:induction false} DecimalCounts(n: nat)
    ensures AllDigits(Decimal(n)) && NumberOf(Decimal(n)) == n
    ensures |Decimal(n)| > 0 && (Decimal(n)[0] == 48 <==> n == 0)
    decreases n
  {
    var d := Decimal(n);
    if n < 10 {
      assert d[..0] == [];
    } else {
      DecimalCounts(n / 10);
      assert d[..|d| - 1] == Decimal(n / 10);
    }
  }

  /** The timer's message to a room names it and says how many participants it has. */
  lemma CensusCounts(s: Chat, room: Text) returns (digits: Text)
    ensures Census(s, room)
         == ChatMsg(room,
                    Ascii("[[BROADCAST - ") + room + Ascii("]]"),
                    Ascii("There are currently: ") + digits + Ascii(" users on the chat!"))
    ensures AllDigits(digits) && NumberOf(digits) == |Members(s, room)|
    ensures |digits| > 0 && (digits[0] == 48 <==> |Members(s, room)| == 0)
  {
    digits := Decimal(|Members(s, room)|);
    DecimalCounts(|Members(s, room)|);
  }
}
