/** Every packet and frame byte by byte, as the protocol headers number them. */
module WireLayout {
  import opened Basics
  import opened Protocol
  import opened Codec
  import opened Wire
  import opened Framing

  /** The byte of a number at a place. */
  function ByteAt(n: nat, place: nat): Byte
    requires place > 0
  {
    (n / place % 256) as Byte
  }

  function Four(n: nat): Text {
    [ByteAt(n, 0x1), ByteAt(n, 0x100), ByteAt(n, 0x1_0000), ByteAt(n, 0x100_0000)]
  }

  function Eight(n: nat): Text {
    Four(n) + [ByteAt(n, 0x1_0000_0000), ByteAt(n, 0x100_0000_0000),
               ByteAt(n, 0x1_0000_0000_0000), ByteAt(n, 0x100_0000_0000_0000)]
  }

  function Counted(text: Text): Text {
    Four(|text|) + text
  }

  function Listed(chars: seq<Entity>): Text {
    if |chars| == 0 then [] else Four(chars[0].uid) + Counted(chars[0].name) + Listed(chars[1..])
  }

  function Layout(p: Packet): Text {
    match p
    // preauth
    case GoodKeys => [0]
    case BadKeys => [1]
    // lobby
    case CharacterList(chars) => [0] + Eight(|chars|) + Listed(chars)
    case CharacterSelected(name) => [1] + Counted(name)
    case CharacterCreated(e) => [2] + Four(e.uid) + Counted(e.name)
    case CharacterCreationFail(NameTooLong) => [3] + Four(0)
    case CharacterCreationFail(NameContainsIncorrectDigits) => [3] + Four(1)
    case CharacterCreationFail(NameAlreadyUsed) => [3] + Four(2)
    case CharacterCreationFail(CharacterLimitExceeded) => [3] + Four(3)
    // ingame
    case MovedToLobby => [0]
    case UserJoinedChat(room, who) => [1] + Counted(room) + Counted(who)
    case UserLeftChat(room, who) => [2] + Counted(room) + Counted(who)
    case ChatMsg(room, who, message) => [3] + Counted(room) + Counted(who) + Counted(message)
    case WhisperMessage(who, message) => [4] + Counted(who) + Counted(message)
    case FriendOnlineWhileYouLogin(nick) => [5] + Counted(nick)
    case FriendLogin(nick) => [6] + Counted(nick)
    case FriendLeave(nick) => [7] + Counted(nick)
    case NewFriendship(nick) => [8] + Counted(nick)
    case BrokenFriendship(nick) => [9] + Counted(nick)
    case FriendshipRequest(nick) => [10] + Counted(nick)
    case FriendAddFail(PlayerNotOnline, nick) => [11] + Four(0) + Counted(nick)
    case FriendAddFail(CannotInviteSelf, nick) => [11] + Four(1) + Counted(nick)
    case FriendAddFail(AlreadyFriends, nick) => [11] + Four(2) + Counted(nick)
    case FriendRemovalFail(nick) => [12] + Counted(nick)
    case FriendAddResult(SentSuccesfully, nick) => [13] + Four(0) + Counted(nick)
    case FriendAddResult(PreviousStillWaiting, nick) => [13] + Four(1) + Counted(nick)
  }

  // ---------------------------------------------------------------- Raw values

  lemma RawOne(n: nat)
    requires n < 256
    ensures Raw(n, OPCODE) == [n as Byte]
  {
    assert Raw(n / 256, 0) == [];
  }

  lemma RawFour(n: nat)
    ensures Raw(n, UNSIGNED) == Four(n)
  {
    forall i | 0 <= i < UNSIGNED
      ensures Raw(n, UNSIGNED)[i] == Four(n)[i]
    {
      RawIsLittleEndian(n, UNSIGNED, i);
      Places();
    }
  }

  lemma Places()
    ensures Capacity(0) == 0x1 && Capacity(1) == 0x100 && Capacity(2) == 0x1_0000 && Capacity(3) == 0x100_0000
  {
    assert Capacity(1) == 256 * Capacity(0) && Capacity(2) == 256 * Capacity(1) && Capacity(3) == 256 * Capacity(2);
  }

  lemma HighPlaces()
    ensures Capacity(4) == 0x1_0000_0000 && Capacity(5) == 0x100_0000_0000
    ensures Capacity(6) == 0x1_0000_0000_0000 && Capacity(7) == 0x100_0000_0000_0000
  {
    Places();
    assert Capacity(4) == 256 * Capacity(3) && Capacity(5) == 256 * Capacity(4);
    assert Capacity(6) == 256 * Capacity(5) && Capacity(7) == 256 * Capacity(6);
  }

  lemma RawEight(n: nat)
    ensures Raw(n, SIZE_T) == Eight(n)
  {
    forall i | 0 <= i < SIZE_T
      ensures Raw(n, SIZE_T)[i] == Eight(n)[i]
    {
      RawIsLittleEndian(n, SIZE_T, i);
      Places();
      HighPlaces();
    }
  }

  // ---------------------------------------------------------------- Fields

  lemma TextIsCounted(text: Text)
    ensures EncodeField(Str(text)) == Counted(text)
  {
    RawFour(|text|);
  }

  lemma OneText(a: Text)
    ensures Encode([Str(a)]) == Counted(a)
  {
    TextIsCounted(a);
    EncodeOneMore(Str(a), []);
    assert [Str(a)] + [] == [Str(a)] && Counted(a) + [] == Counted(a);
  }

  lemma TwoTexts(a: Text, b: Text)
    ensures Encode([Str(a), Str(b)]) == Counted(a) + Counted(b)
  {
    TextIsCounted(a);
    OneText(b);
    EncodeOneMore(Str(a), [Str(b)]);
    assert [Str(a)] + [Str(b)] == [Str(a), Str(b)];
  }

  lemma ThreeTexts(a: Text, b: Text, c: Text)
    ensures Encode([Str(a), Str(b), Str(c)]) == Counted(a) + Counted(b) + Counted(c)
  {
    TextIsCounted(a);
    TwoTexts(b, c);
    EncodeOneMore(Str(a), [Str(b), Str(c)]);
    assert [Str(a)] + [Str(b), Str(c)] == [Str(a), Str(b), Str(c)];
    assert Counted(a) + (Counted(b) + Counted(c)) == Counted(a) + Counted(b) + Counted(c);
  }

  lemma NumberOnly(n: nat)
    ensures Encode([Plain(UNSIGNED, n)]) == Four(n)
  {
    RawFour(n);
    EncodeOneMore(Plain(UNSIGNED, n), []);
    assert [Plain(UNSIGNED, n)] + [] == [Plain(UNSIGNED, n)] && Four(n) + [] == Four(n);
  }

  lemma NumberAndText(n: nat, a: Text)
    ensures Encode([Plain(UNSIGNED, n), Str(a)]) == Four(n) + Counted(a)
  {
    RawFour(n);
    OneText(a);
    EncodeOneMore(Plain(UNSIGNED, n), [Str(a)]);
    assert [Plain(UNSIGNED, n)] + [Str(a)] == [Plain(UNSIGNED, n), Str(a)];
  }

  lemma {:induction false} CharactersAreListed(chars: seq<Entity>)
    ensures Encode(CharacterFields(chars)) == Listed(chars)
    decreases |chars|
  {
    if |chars| > 0 {
      CharactersAreListed(chars[1..]);
      EncodePair(chars);
      RawFour(chars[0].uid);
      TextIsCounted(chars[0].name);
    }
  }

  lemma ListIsLaidOut(chars: seq<Entity>)
    ensures Encode(Payload(CharacterList(chars))) == Eight(|chars|) + Listed(chars)
  {
    CharactersAreListed(chars);
    RawEight(|chars|);
    EncodeOneMore(Plain(SIZE_T, |chars|), CharacterFields(chars));
  }

  // ---------------------------------------------------------------- Packets and frames

  lemma BytesBegin(p: Packet)
    ensures Bytes(p) == [OpcodeOf(p) as Byte] + Encode(Payload(p))
  {
    RawOne(OpcodeOf(p));
    EncodeOneMore(Plain(OPCODE, OpcodeOf(p)), Payload(p));
  }

  lemma Regrouped(a: Text, b: Text, c: Text)
    ensures a + (b + c) == a + b + c
  {
  }

  lemma TextPacket(p: Packet)
    requires p.FriendOnlineWhileYouLogin? || p.FriendLogin? || p.FriendLeave?
             || p.NewFriendship? || p.BrokenFriendship? || p.FriendshipRequest? || p.FriendRemovalFail?
    ensures [OpcodeOf(p) as Byte] + Encode(Payload(p)) == Layout(p)
  {
    assert Payload(p) == [Str(p.nick)];
    OneText(p.nick);
    assert Encode(Payload(p)) == Counted(p.nick);
  }

  lemma SelectedPacket(p: Packet)
    requires p.CharacterSelected?
    ensures [OpcodeOf(p) as Byte] + Encode(Payload(p)) == Layout(p)
  {
    OneText(p.selected);
  }

  lemma RoomPacket(p: Packet)
    requires p.UserJoinedChat? || p.UserLeftChat?
    ensures [OpcodeOf(p) as Byte] + Encode(Payload(p)) == Layout(p)
  {
    TwoTexts(p.room, p.who);
    Regrouped([OpcodeOf(p) as Byte], Counted(p.room), Counted(p.who));
  }

  lemma MessagePacket(p: Packet)
    requires p.ChatMsg?
    ensures [OpcodeOf(p) as Byte] + Encode(Payload(p)) == Layout(p)
  {
    ThreeTexts(p.room, p.who, p.message);
    Regrouped([3], Counted(p.room), Counted(p.who));
    Regrouped([3], Counted(p.room) + Counted(p.who), Counted(p.message));
  }

  lemma WhisperPacket(p: Packet)
    requires p.WhisperMessage?
    ensures [OpcodeOf(p) as Byte] + Encode(Payload(p)) == Layout(p)
  {
    TwoTexts(p.who, p.message);
    Regrouped([4], Counted(p.who), Counted(p.message));
  }

  lemma NumberPacket(p: Packet)
    requires p.CharacterCreated? || p.CharacterCreationFail?
    ensures [OpcodeOf(p) as Byte] + Encode(Payload(p)) == Layout(p)
  {
    match p
    case CharacterCreated(e) =>
      NumberAndText(e.uid, e.name);
      Regrouped([2], Four(e.uid), Counted(e.name));
    case CharacterCreationFail(failure) =>
      NumberOnly(FailureCode(failure));
  }

  lemma AnswerPacket(p: Packet)
    requires p.FriendAddFail? || p.FriendAddResult?
    ensures [OpcodeOf(p) as Byte] + Encode(Payload(p)) == Layout(p)
  {
    var code := if p.FriendAddFail? then ReasonCode(p.reason) else OutcomeCode(p.outcome);
    NumberAndText(code, p.nick);
    Regrouped([OpcodeOf(p) as Byte], Four(code), Counted(p.nick));
  }

  lemma PayloadIsLaidOut(p: Packet)
    requires !p.CharacterList?
    ensures [OpcodeOf(p) as Byte] + Encode(Payload(p)) == Layout(p)
  {
    match p
    case UserJoinedChat(_, _) => RoomPacket(p);
    case UserLeftChat(_, _) => RoomPacket(p);
    case ChatMsg(_, _, _) => MessagePacket(p);
    case WhisperMessage(_, _) => WhisperPacket(p);
    case CharacterCreated(_) => NumberPacket(p);
    case CharacterCreationFail(_) => NumberPacket(p);
    case FriendAddFail(_, _) => AnswerPacket(p);
    case FriendAddResult(_, _) => AnswerPacket(p);
    case GoodKeys =>
    case BadKeys =>
    case MovedToLobby =>
    case CharacterSelected(_) => SelectedPacket(p);
    case _ => TextPacket(p);
  }

  /** Every packet is laid out like this. */
  lemma BytesAreLaidOut(p: Packet)
    ensures Bytes(p) == Layout(p)
  {
    BytesBegin(p);
    if p.CharacterList? {
      ListIsLaidOut(p.chars);
    } else {
      PayloadIsLaidOut(p);
    }
  }

  /** And every frame is the size of its packet in four bytes, and the packet. */
  lemma FrameIsLaidOut(p: Text)
    ensures Frame(p) == Counted(p)
  {
    RawFour(|p|);
  }
}
