/** How many bytes packets take, and which requests make the server send packets that fit its buffer. */
module PacketSizes {
  import opened Basics
  import opened Protocol
  import opened Codec
  import opened Wire
  import opened Database
  import opened PendingRequests
  import opened Friends
  import opened Worlds
  import opened Sessions
  import opened ServerSteps
  import opened RequestPackets
  import Chats

  // ---------------------------------------------------------------- Sizes

  function Bytes1(a: Text): nat { OPCODE + UNSIGNED + |a| }
  function Bytes2(a: Text, b: Text): nat { Bytes1(a) + UNSIGNED + |b| }
  function Bytes3(a: Text, b: Text, c: Text): nat { Bytes2(a, b) + UNSIGNED + |c| }

  function ListBytes(chars: seq<Entity>): nat {
    if |chars| == 0 then 0 else UNSIGNED + UNSIGNED + |chars[0].name| + ListBytes(chars[1..])
  }

  function PacketSize(p: Packet): nat {
    match p
    case GoodKeys => OPCODE
    case BadKeys => OPCODE
    case CharacterList(chars) => OPCODE + SIZE_T + ListBytes(chars)
    case CharacterSelected(name) => Bytes1(name)
    case CharacterCreated(e) => Bytes1(e.name) + UNSIGNED
    case CharacterCreationFail(_) => OPCODE + UNSIGNED
    case MovedToLobby => OPCODE
    case UserJoinedChat(room, who) => Bytes2(room, who)
    case UserLeftChat(room, who) => Bytes2(room, who)
    case ChatMsg(room, who, message) => Bytes3(room, who, message)
    case WhisperMessage(who, message) => Bytes2(who, message)
    case FriendAddFail(_, nick) => Bytes1(nick) + UNSIGNED
    case FriendAddResult(_, nick) => Bytes1(nick) + UNSIGNED
    case _ => Bytes1(p.nick)
  }

  lemma SizeOfOne(f: Field)
    ensures Size([f]) == SizeOfField(f)
  {
    HeadSize(f, []);
    assert [f] + [] == [f];
  }

  lemma SizeOfTwo(f: Field, g: Field)
    ensures Size([f, g]) == SizeOfField(f) + SizeOfField(g)
  {
    SizeOfOne(g);
    HeadSize(f, [g]);
    assert [f] + [g] == [f, g];
  }

  lemma SizeOfThree(f: Field, g: Field, h: Field)
    ensures Size([f, g, h]) == SizeOfField(f) + SizeOfField(g) + SizeOfField(h)
  {
    SizeOfTwo(g, h);
    HeadSize(f, [g, h]);
    assert [f] + [g, h] == [f, g, h];
  }

  lemma {:induction false} SizeOfList(chars: seq<Entity>)
    ensures Size(CharacterFields(chars)) == ListBytes(chars)
    decreases |chars|
  {
    if |chars| > 0 {
      SizeOfList(chars[1..]);
      PairIs(chars[0], CharacterFields(chars[1..]));
    }
  }

  lemma SizeOfNamePayload(p: Packet)
    requires |Payload(p)| == 1
    ensures OPCODE + Size(Payload(p)) == PacketSize(p)
  {
    assert Payload(p) == [Payload(p)[0]];
    SizeOfOne(Payload(p)[0]);
  }

  lemma SizeOfPairPayload(p: Packet)
    requires |Payload(p)| == 2 && !p.CharacterList?
    ensures OPCODE + Size(Payload(p)) == PacketSize(p)
  {
    assert Payload(p) == [Payload(p)[0], Payload(p)[1]];
    SizeOfTwo(Payload(p)[0], Payload(p)[1]);
  }

  lemma SizeOfPayload(p: Packet)
    ensures OPCODE + Size(Payload(p)) == PacketSize(p)
  {
    if p.CharacterList? {
      SizeOfList(p.chars);
      HeadSize(Plain(SIZE_T, |p.chars|), CharacterFields(p.chars));
    } else if p.ChatMsg? {
      SizeOfThree(Str(p.room), Str(p.who), Str(p.message));
    } else if |Payload(p)| == 1 {
      SizeOfNamePayload(p);
    } else if |Payload(p)| == 2 {
      SizeOfPairPayload(p);
    }
  }

  /** The sizes above are those of the encodings. */
  lemma PacketSizeIsExact(p: Packet)
    ensures |Bytes(p)| == PacketSize(p)
  {
    var opcode := Plain(OPCODE, OpcodeOf(p));
    SizeIsLength([opcode] + Payload(p));
    HeadSize(opcode, Payload(p));
    SizeOfPayload(p);
  }

  // ---------------------------------------------------------------- Fitting

  /** One more than the largest unsigned. */
  const IDS: nat := 0x1_0000_0000

  predicate IdsAreUnsigned(chars: seq<Entity>) {
    forall i :: 0 <= i < |chars| ==> chars[i].uid < IDS
  }

  /** The packet fits the buffer and its ids their type. */
  predicate Fits(p: Packet) {
    && PacketSize(p) <= BUFFER_SIZE
    && match p
       case CharacterList(chars) => IdsAreUnsigned(chars)
       case CharacterCreated(e) => e.uid < IDS
       case _ => true
  }

  lemma {:induction false} ListEncodable(chars: seq<Entity>)
    requires IdsAreUnsigned(chars) && ListBytes(chars) <= BUFFER_SIZE
    ensures AllEncodable(CharacterFields(chars)) && |chars| <= BUFFER_SIZE
    decreases |chars|
  {
    if |chars| > 0 {
      ListEncodable(chars[1..]);
      LargestUnsigned();
      PrependEncodable(Plain(UNSIGNED, chars[0].uid), Str(chars[0].name), CharacterFields(chars[1..]));
      ListCounts(chars);
    }
  }

  lemma {:induction false} ListCounts(chars: seq<Entity>)
    ensures |chars| <= ListBytes(chars)
    decreases |chars|
  {
    if |chars| > 0 {
      ListCounts(chars[1..]);
    }
  }

  lemma PrependEncodable(f: Field, g: Field, rest: seq<Field>)
    requires Encodable(f) && Encodable(g) && AllEncodable(rest)
    ensures AllEncodable([f, g] + rest)
  {
    var all := [f, g] + rest;
    assert all[0] == f && all[1] == g && forall i | 2 <= i < |all| :: all[i] == rest[i - 2];
  }

  lemma SmallNumbersEncodable(n: nat)
    requires n <= BUFFER_SIZE
    ensures n < Capacity(UNSIGNED) && n < Capacity(SIZE_T)
  {
    LargestUnsigned();
    assert Capacity(8) == 256 * Capacity(7) && Capacity(7) == 256 * Capacity(6);
    assert Capacity(6) == 256 * Capacity(5) && Capacity(5) == 256 * Capacity(4);
  }

  /** What fits can be sent. */
  lemma FittingIsSendable(p: Packet)
    requires Fits(p)
    ensures Sendable(p)
  {
    PacketSizeIsExact(p);
    LargestUnsigned();
    if p.CharacterList? {
      ListEncodable(p.chars);
      SmallNumbersEncodable(|p.chars|);
      var list := CharacterFields(p.chars);
      assert Payload(p) == [Plain(SIZE_T, |p.chars|)] + list;
      assert forall i | 1 <= i < |Payload(p)| :: Payload(p)[i] == list[i - 1];
    }
  }

  /** All the mail that is on its way fits. */
  predicate FitMail(mail: Mail) {
    forall u <- mail :: forall i :: 0 <= i < |mail[u]| ==> Fits(mail[u][i])
  }

  lemma DeliverFits(mail: Mail, to: set<Uid>, p: Packet)
    requires FitMail(mail)
    ensures FitMail(Deliver(mail, to, p)) <==> Fits(p) || mail.Keys !! to
  {
    var after := Deliver(mail, to, p);
    forall u <- mail | u in to
      ensures after[u][|mail[u]|] == p
    {
    }
  }

  // ---------------------------------------------------------------- Requests

  /** Every character in the world has a proper name, and is at hand under it. */
  ghost predicate ShortNames(w: World) {
    && (forall e <- w.entities :: |e.name| <= NAME_LIMIT && e.uid in w.social.mail)
    && (forall n <- w.social.registry.byName ::
          w.social.registry.byName[n].name == n && w.social.registry.byName[n] in w.entities)
  }

  /** The exact bounds on the strings of a request in a world: what it makes the server send fits. */
  ghost predicate RequestFits(w: World, me: Entity, r: IngameRequest) {
    match r
    case JoinChat(room) =>
      me in Chats.Members(ChatOf(w), room) || |room| + |me.name| <= 2039
    case LeaveChat(room) =>
      || me !in Chats.Members(ChatOf(w), room)
      || Without(Chats.Members(ChatOf(w), room), me) == []
      || |room| + |me.name| <= 2039
    case SendChatMsg(room, message) =>
      me !in Chats.Members(ChatOf(w), room) || |room| + |me.name| + |message| <= 2035
    case SendWhisper(recipient, message) =>
      || recipient !in w.social.registry.byName || w.social.registry.byName[recipient] == me
      || |me.name| + |message| <= 2039
    case FriendAdd(nick) => nick in w.social.registry.byName || |nick| <= 2039
    case FriendRemove(nick) => |nick| <= 2043
    case _ => true
  }

  lemma ReachesSomebody(w: World, es: seq<Entity>)
    requires ShortNames(w) && |es| > 0 && es[0] in w.entities
    ensures !(w.social.mail.Keys !! Chats.UidsOf(es))
  {
    assert es[0].uid in w.social.mail.Keys && es[0].uid in Chats.UidsOf(es);
  }

  lemma JoinFitsExactly(w: World, me: Entity, room: Text)
    requires ShortNames(w) && FitMail(w.social.mail) && me in w.entities
    ensures FitMail(Chats.JoinRoom(ChatOf(w), me, room).mail) <==> RequestFits(w, me, JoinChat(room))
  {
    var es := Chats.Members(ChatOf(w), room) + [me];
    DeliverFits(w.social.mail, Chats.UidsOf(es), UserJoinedChat(room, me.name));
    assert me in es && me.uid in Chats.UidsOf(es) && me.uid in w.social.mail.Keys;
  }

  lemma LeaveFitsExactly(w: World, me: Entity, room: Text)
    requires ShortNames(w) && FitMail(w.social.mail) && Chats.RoomsAgree(ChatOf(w))
    ensures FitMail(Chats.LeaveRoom(ChatOf(w), me, room).mail) <==> RequestFits(w, me, LeaveChat(room))
  {
    var es := Without(Chats.Members(ChatOf(w), room), me);
    DeliverFits(w.social.mail, Chats.UidsOf(es), UserLeftChat(room, me.name));
    if |es| > 0 {
      assert es[0] in es && es[0] in Chats.Members(ChatOf(w), room);
      ReachesSomebody(w, es);
    }
  }

  lemma MessageFitsExactly(w: World, me: Entity, room: Text, message: Text)
    requires ShortNames(w) && FitMail(w.social.mail) && me in w.entities
    ensures FitMail(Chats.BroadcastMessage(ChatOf(w), me, room, message).mail)
            <==> RequestFits(w, me, SendChatMsg(room, message))
  {
    var es := Chats.Members(ChatOf(w), room);
    DeliverFits(w.social.mail, Chats.UidsOf(es), ChatMsg(room, me.name, message));
    if me in es {
      assert me.uid in Chats.UidsOf(es) && me.uid in w.social.mail.Keys;
    }
  }

  lemma WhisperFitsExactly(w: World, me: Entity, recipient: Text, message: Text)
    requires ShortNames(w) && FitMail(w.social.mail)
    ensures FitMail(Chats.Whisper(ChatOf(w), me, recipient, message).mail)
            <==> RequestFits(w, me, SendWhisper(recipient, message))
  {
    if recipient in w.social.registry.byName {
      var his := w.social.registry.byName[recipient];
      DeliverFits(w.social.mail, {his.uid}, WhisperMessage(me.name, message));
      assert his.uid in w.social.mail.Keys;
    }
  }

  lemma ReplyFitsExactly(s: Social, me: Entity, p: Packet)
    requires FitMail(s.mail) && me.uid in s.mail
    ensures FitMail(Reply(s, me, p).mail) <==> Fits(p)
    ensures Reply(s, me, p).mail.Keys == s.mail.Keys
  {
    DeliverFits(s.mail, {me.uid}, p);
  }

  lemma TwoRepliesFit(s: Social, one: Entity, p: Packet, other: Entity, q: Packet)
    requires FitMail(s.mail) && Fits(p) && Fits(q)
    ensures FitMail(Reply(Reply(s, one, p), other, q).mail)
  {
    DeliverFits(s.mail, {one.uid}, p);
    DeliverFits(Reply(s, one, p).mail, {other.uid}, q);
  }

  lemma MoreMailFitsNoBetter(mail: Mail, to: set<Uid>, p: Packet)
    requires !FitMail(mail)
    ensures !FitMail(Deliver(mail, to, p))
  {
    var u :| u in mail && !(forall i :: 0 <= i < |mail[u]| ==> Fits(mail[u][i]));
    var i :| 0 <= i < |mail[u]| && !Fits(mail[u][i]);
    assert Deliver(mail, to, p)[u][i] == mail[u][i];
  }

  lemma InviteMail(s: Social, me: Entity, target: Entity, now: int)
    requires me.uid in s.lists && target.uid in s.lists
    ensures Invite(s, me, target, now).mail
         == match AnswerTo(s.buffers, Request(me.uid, target.uid), now)
            case AlreadyInBuffer => Reply(s, me, FriendAddResult(PreviousStillWaiting, target.name)).mail
            case SuccesfullyAdded =>
              Reply(Reply(s, target, FriendshipRequest(me.name)), me,
                    FriendAddResult(SentSuccesfully, target.name)).mail
            case ThatWasAMatch => Reply(Reply(s, me, NewFriendship(target.name)), target, NewFriendship(me.name)).mail
  {
  }

  lemma InviteFits(s: Social, me: Entity, target: Entity, now: int)
    requires FitMail(s.mail) && me.uid in s.lists && target.uid in s.lists
    requires |me.name| <= NAME_LIMIT && |target.name| <= NAME_LIMIT
    ensures FitMail(Invite(s, me, target, now).mail)
  {
    InviteMail(s, me, target, now);
    match AnswerTo(s.buffers, Request(me.uid, target.uid), now)
    case AlreadyInBuffer =>
      DeliverFits(s.mail, {me.uid}, FriendAddResult(PreviousStillWaiting, target.name));
    case SuccesfullyAdded =>
      TwoRepliesFit(s, target, FriendshipRequest(me.name), me, FriendAddResult(SentSuccesfully, target.name));
    case ThatWasAMatch =>
      TwoRepliesFit(s, me, NewFriendship(target.name), target, NewFriendship(me.name));
  }

  lemma RequestAddMail(s: Social, me: Entity, nick: Text, now: int) returns (reason: FriendAddFailure)
    requires CanRequest(s, me, nick) && nick in s.registry.byName
    ensures || RequestAdd(s, me, nick, now).mail == Reply(s, me, FriendAddFail(reason, nick)).mail
            || RequestAdd(s, me, nick, now).mail == Invite(s, me, s.registry.byName[nick], now).mail
  {
    reason := if s.registry.byName[nick].uid == me.uid then CannotInviteSelf else AlreadyFriends;
  }

  lemma OnlineAddFits(s: Social, me: Entity, nick: Text, now: int)
    requires CanRequest(s, me, nick) && nick in s.registry.byName && s.registry.byName[nick].name == nick
    requires FitMail(s.mail) && me.uid in s.mail && |me.name| <= NAME_LIMIT && |nick| <= NAME_LIMIT
    ensures FitMail(RequestAdd(s, me, nick, now).mail)
  {
    var reason := RequestAddMail(s, me, nick, now);
    OutcomeFits(s, me, nick, now, reason, RequestAdd(s, me, nick, now).mail);
  }

  lemma OutcomeFits(s: Social, me: Entity, nick: Text, now: int, reason: FriendAddFailure, mail: Mail)
    requires me.uid in s.lists && nick in s.registry.byName
    requires s.registry.byName[nick].name == nick && s.registry.byName[nick].uid in s.lists
    requires FitMail(s.mail) && me.uid in s.mail && |me.name| <= NAME_LIMIT && |nick| <= NAME_LIMIT
    requires || mail == Reply(s, me, FriendAddFail(reason, nick)).mail
             || mail == Invite(s, me, s.registry.byName[nick], now).mail
    ensures FitMail(mail)
  {
    if mail == Reply(s, me, FriendAddFail(reason, nick)).mail {
      ReplyFitsExactly(s, me, FriendAddFail(reason, nick));
    } else {
      InviteFits(s, me, s.registry.byName[nick], now);
    }
  }

  lemma FriendAddFitsExactly(w: World, me: Entity, nick: Text, now: int)
    requires ShortNames(w) && FitMail(w.social.mail) && me in w.entities && CanRequest(w.social, me, nick)
    ensures FitMail(RequestAdd(w.social, me, nick, now).mail) <==> RequestFits(w, me, FriendAdd(nick))
  {
    if nick in w.social.registry.byName {
      OnlineAddFits(w.social, me, nick, now);
    } else {
      ReplyFitsExactly(w.social, me, FriendAddFail(PlayerNotOnline, nick));
    }
  }

  lemma BreakMail(s: Social, me: Entity, target: Entity)
    requires me.uid in s.lists
    ensures var told := Reply(s, me, BrokenFriendship(target.name));
            Break(s, me, target).mail
              == if target.uid in s.lists then Reply(told, target, BrokenFriendship(me.name)).mail else told.mail
  {
  }

  lemma BreakFitsExactly(s: Social, me: Entity, target: Entity)
    requires FitMail(s.mail) && me.uid in s.mail && me.uid in s.lists && |me.name| <= NAME_LIMIT
    ensures FitMail(Break(s, me, target).mail) <==> Fits(BrokenFriendship(target.name))
  {
    var told := Reply(s, me, BrokenFriendship(target.name));
    BreakMail(s, me, target);
    ReplyFitsExactly(s, me, BrokenFriendship(target.name));
    if FitMail(told.mail) {
      DeliverFits(told.mail, {target.uid}, BrokenFriendship(me.name));
    } else {
      MoreMailFitsNoBetter(told.mail, {target.uid}, BrokenFriendship(me.name));
    }
  }

  lemma RequestRemoveMail(s: Social, me: Entity, nick: Text) returns (target: Entity)
    requires me.uid in s.lists
    ensures target.name == nick
    ensures || RequestRemove(s, me, nick).mail == Reply(s, me, FriendRemovalFail(nick)).mail
            || RequestRemove(s, me, nick).mail == Break(s, me, target).mail
  {
    target := Entity(UidOf(s.tables, nick), nick);
  }

  lemma FriendRemoveFitsExactly(s: Social, me: Entity, nick: Text)
    requires FitMail(s.mail) && me.uid in s.mail && me.uid in s.lists && |me.name| <= NAME_LIMIT
    ensures FitMail(RequestRemove(s, me, nick).mail) <==> |nick| <= 2043
  {
    var target := RequestRemoveMail(s, me, nick);
    RemovalFitsExactly(s, me, nick, target, RequestRemove(s, me, nick).mail);
  }

  lemma RemovalFitsExactly(s: Social, me: Entity, nick: Text, target: Entity, mail: Mail)
    requires FitMail(s.mail) && me.uid in s.mail && me.uid in s.lists && |me.name| <= NAME_LIMIT && target.name == nick
    requires mail == Reply(s, me, FriendRemovalFail(nick)).mail || mail == Break(s, me, target).mail
    ensures FitMail(mail) <==> |nick| <= 2043
  {
    if mail == Reply(s, me, FriendRemovalFail(nick)).mail {
      RefusalFitsExactly(s, me, nick, mail);
    } else {
      EndFitsExactly(s, me, target, mail);
    }
  }

  lemma RefusalFitsExactly(s: Social, me: Entity, nick: Text, mail: Mail)
    requires FitMail(s.mail) && me.uid in s.mail && mail == Reply(s, me, FriendRemovalFail(nick)).mail
    ensures FitMail(mail) <==> |nick| <= 2043
  {
    ReplyFitsExactly(s, me, FriendRemovalFail(nick));
  }

  lemma EndFitsExactly(s: Social, me: Entity, target: Entity, mail: Mail)
    requires FitMail(s.mail) && me.uid in s.mail && me.uid in s.lists && |me.name| <= NAME_LIMIT
    requires mail == Break(s, me, target).mail
    ensures FitMail(mail) <==> |target.name| <= 2043
  {
    BreakFitsExactly(s, me, target);
  }

  /** For every request of a user in the world: all the packets that it causes fit if and only if its strings are
      within the bounds. */
  lemma RequestFitsExactly(w: World, me: Entity, r: IngameRequest, now: int)
    requires ShortNames(w) && FitMail(w.social.mail) && Chats.RoomsAgree(ChatOf(w)) && CanServe(w, me, r)
    ensures FitMail(ServedWorld(w, me, r, now).social.mail) <==> RequestFits(w, me, r)
  {
    match r
    case JoinChat(room) => JoinFitsExactly(w, me, room);
    case LeaveChat(room) => LeaveFitsExactly(w, me, room);
    case SendChatMsg(room, message) => MessageFitsExactly(w, me, room, message);
    case SendWhisper(recipient, message) => WhisperFitsExactly(w, me, recipient, message);
    case FriendAdd(nick) => FriendAddFitsExactly(w, me, nick, now);
    case FriendRemove(nick) => FriendRemoveFitsExactly(w.social, me, nick);
    case _ =>
  }

  // ---------------------------------------------------------------- The census

  /** The size of the timer's message to a room with `count` participants. */
  function CensusSize(room: Text, count: nat): nat {
    69 + 2 * |room| + |Chats.Decimal(count)|
  }

  lemma CensusSizeIsExact(c: Chats.Chat, room: Text)
    ensures |Bytes(Chats.Census(c, room))| == CensusSize(room, |Chats.Members(c, room)|)
  {
    PacketSizeIsExact(Chats.Census(c, room));
  }

  function TenTo(k: nat): nat {
    if k == 0 then 1 else 10 * TenTo(k - 1)
  }

  lemma {:induction false} DecimalLength(n: nat, k: nat)
    requires k > 0
    ensures |Chats.Decimal(n)| <= k <==> n < TenTo(k)
    decreases n
  {
    if n >= 10 && k > 1 {
      DecimalLength(n / 10, k - 1);
    } else {
      TenToIsLarge(k);
    }
  }

  lemma {:induction false} TenToIsLarge(k: nat)
    requires k > 0
    ensures TenTo(k) >= 10 && (k == 1 ==> TenTo(k) == 10)
  {
    if k > 1 {
      TenToIsLarge(k - 1);
    }
  }

  lemma UnsignedDigits()
    ensures TenTo(9) < IDS <= TenTo(10)
  {
    assert TenTo(3) == 1000 && TenTo(6) == 1000 * TenTo(3) && TenTo(9) == 1000 * TenTo(6);
  }

  /** The longest room name whose census always fits: a count of participants has up to ten digits. */
  const ROOM_LIMIT: nat := 984

  lemma RoomLimitIsExact(room: Text)
    ensures |room| <= ROOM_LIMIT <==> forall count: nat :: count < IDS ==> CensusSize(room, count) <= BUFFER_SIZE
  {
    UnsignedDigits();
    forall count: nat | count < IDS
      ensures CensusSize(room, count) <= 79 + 2 * |room|
    {
      DecimalLength(count, 10);
    }
    DecimalLength(TenTo(9), 9);
    assert CensusSize(room, TenTo(9)) >= 79 + 2 * |room|;
  }

  predicate ShortRooms(rooms: map<Text, seq<Entity>>) {
    forall room <- rooms :: |room| <= ROOM_LIMIT
  }

  lemma {:induction false} UidsBelow(k: nat) returns (ids: set<Uid>)
    requires k > 0
    ensures forall i: nat :: i in ids <==> 0 < i < k
    ensures |ids| == k - 1
  {
    if k == 1 {
      ids := {};
    } else {
      var fewer := UidsBelow(k - 1);
      ids := fewer + {k - 1};
    }
  }

  lemma {:induction false} UidsCount(es: seq<Entity>)
    requires forall i, j :: 0 <= i < j < |es| ==> es[i].uid != es[j].uid
    ensures |Chats.UidsOf(es)| == |es|
    decreases |es|
  {
    if |es| > 0 {
      var init, last := es[..|es| - 1], es[|es| - 1];
      UidsCount(init);
      assert Chats.UidsOf(es) == Chats.UidsOf(init) + {last.uid};
    }
  }

  lemma SubsetCount<T>(few: set<T>, many: set<T>)
    requires few <= many
    ensures |few| <= |many|
  {
    assert many == few + (many - few);
  }

  /** There are fewer participants than ids. */
  lemma RoomsAreCountable(es: seq<Entity>, nextId: Uid)
    requires nextId > 0 && forall e <- es :: 0 < e.uid < nextId
    requires forall i, j :: 0 <= i < j < |es| ==> es[i].uid != es[j].uid
    ensures |es| < nextId
  {
    var ids := UidsBelow(nextId);
    UidsCount(es);
    SubsetCount(Chats.UidsOf(es), ids);
  }

  /** No room has too many participants for its number to be unsigned. */
  ghost predicate CountsAreUnsigned(c: Chats.Chat) {
    forall room <- c.rooms :: |c.rooms[room]| < IDS
  }

  predicate CensusFits(c: Chats.Chat, room: Text) {
    CensusSize(room, |Chats.Members(c, room)|) <= BUFFER_SIZE
  }

  lemma CensusDelivered(c: Chats.Chat, mail: Mail, room: Text, mail': Mail)
    requires mail' == Deliver(mail, Chats.UidsOf(Chats.Members(c, room)), Chats.Census(c, room))
    requires !(mail.Keys !! Chats.UidsOf(Chats.Members(c, room)))
    ensures mail'.Keys == mail.Keys && (FitMail(mail') <==> FitMail(mail) && CensusFits(c, room))
  {
    PacketSizeIsExact(Chats.Census(c, room));
    CensusSizeIsExact(c, room);
    if FitMail(mail) {
      DeliverFits(mail, Chats.UidsOf(Chats.Members(c, room)), Chats.Census(c, room));
    } else {
      MoreMailFitsNoBetter(mail, Chats.UidsOf(Chats.Members(c, room)), Chats.Census(c, room));
    }
  }

  predicate Heard(c: Chats.Chat, order: seq<Text>) {
    forall i :: 0 <= i < |order| ==> !(c.mail.Keys !! Chats.UidsOf(Chats.Members(c, order[i])))
  }

  predicate CensusesFit(c: Chats.Chat, order: seq<Text>) {
    forall i :: 0 <= i < |order| ==> CensusFits(c, order[i])
  }

  /** All the packets of the timer fit if and only if the census of every room does. */
  lemma {:induction false} BroadcastFitsExactly(c: Chats.Chat, order: seq<Text>)
    requires FitMail(c.mail) && Heard(c, order)
    ensures Chats.PeriodicBroadcast(c, order).mail.Keys == c.mail.Keys
    ensures FitMail(Chats.PeriodicBroadcast(c, order).mail) <==> CensusesFit(c, order)
    decreases |order|
  {
    if |order| > 0 {
      var init, room := order[..|order| - 1], order[|order| - 1];
      OneRoomMore(c, order, init, room);
      BroadcastFitsExactly(c, init);
      CensusDelivered(c, Chats.PeriodicBroadcast(c, init).mail, room, Chats.PeriodicBroadcast(c, order).mail);
    }
  }

  lemma OneRoomMore(c: Chats.Chat, order: seq<Text>, init: seq<Text>, room: Text)
    requires |order| > 0 && init == order[..|order| - 1] && room == order[|order| - 1]
    ensures CensusesFit(c, order) <==> CensusesFit(c, init) && CensusFits(c, room)
    ensures Heard(c, order) ==> Heard(c, init) && !(c.mail.Keys !! Chats.UidsOf(Chats.Members(c, room)))
  {
    assert order == init + [room];
  }

  /** Short names are enough for the timer, however many participants there are. */
  lemma ShortRoomsFit(c: Chats.Chat)
    requires ShortRooms(c.rooms) && CountsAreUnsigned(c)
    ensures forall room <- c.rooms :: CensusFits(c, room)
  {
    forall room <- c.rooms
      ensures CensusFits(c, room)
    {
      RoomLimitIsExact(room);
    }
  }

  // ---------------------------------------------------------------- Bounds that a client can keep

  /** Bounds on the strings alone, for rooms with short names. */
  predicate Modest(r: IngameRequest) {
    match r
    case JoinChat(room) => |room| <= ROOM_LIMIT
    case SendChatMsg(room, message) => |room| + |message| <= 2015
    case SendWhisper(_, message) => |message| <= 2019
    case FriendAdd(nick) => |nick| <= 2039
    case FriendRemove(nick) => |nick| <= 2043
    case _ => true
  }

  lemma ModestFits(w: World, me: Entity, r: IngameRequest)
    requires Modest(r) && |me.name| <= NAME_LIMIT && ShortRooms(w.rooms)
    ensures RequestFits(w, me, r)
  {
  }

  // ---------------------------------------------------------------- Packets that overrun the buffer

  lemma WrittenIsRead(r: IngameRequest, text: Text)
    requires r == JoinChat(text) || r == FriendAdd(text)
    ensures |Written(r)| == OPCODE + UNSIGNED + |text|
    ensures |text| <= 2043 ==> ReadIngameRequest(Written(r)) == r
  {
    var fields := IngameFields(r);
    SizeIsLength(fields);
    SizeOfTwo(fields[0], fields[1]);
    if |text| <= 2043 {
      assert Written(r) + [] == Written(r);
      RequestRoundTrip(r, []);
    }
  }

  /** A request that fits the buffer can be answered by a packet that does not: a friend request to an offline name
      of 2040 to 2043 bytes. */
  lemma LongNickOverruns(s: Social, me: Entity, nick: Text, now: int)
    requires CanRequest(s, me, nick) && nick !in s.registry.byName && me.uid in s.mail && 2039 < |nick| <= 2043
    ensures |Written(FriendAdd(nick))| <= BUFFER_SIZE && ReadIngameRequest(Written(FriendAdd(nick))) == FriendAdd(nick)
    ensures var answer := FriendAddFail(PlayerNotOnline, nick);
            && RequestAdd(s, me, nick, now).mail[me.uid] == s.mail[me.uid] + [answer]
            && |Bytes(answer)| == |nick| + 9 > BUFFER_SIZE
  {
    WrittenIsRead(FriendAdd(nick), nick);
    PacketSizeIsExact(FriendAddFail(PlayerNotOnline, nick));
  }

  /** A join whose own packets fit can leave a room whose census does not. */
  lemma LongRoomOverruns(c: Chats.Chat, me: Entity, room: Text)
    requires 990 <= |room| <= 2019 && |me.name| <= NAME_LIMIT && me !in Chats.Members(c, room)
    ensures |Written(JoinChat(room))| <= BUFFER_SIZE && ReadIngameRequest(Written(JoinChat(room))) == JoinChat(room)
    ensures |Bytes(UserJoinedChat(room, me.name))| <= BUFFER_SIZE
    ensures var joined := Chats.JoinRoom(c, me, room);
            room in joined.rooms && |Bytes(Chats.Census(joined, room))| > BUFFER_SIZE
  {
    WrittenIsRead(JoinChat(room), room);
    PacketSizeIsExact(UserJoinedChat(room, me.name));
    CensusSizeIsExact(Chats.JoinRoom(c, me, room), room);
  }
}
