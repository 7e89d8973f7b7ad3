/** How packets become bytes, and how the client turns the bytes back into packets. */
module Wire {
  import opened Basics
  import opened Protocol
  import opened Codec

  // ---------------------------------------------------------------- Encoding

  function FailureCode(f: CreationFailure): nat {
    match f
    case NameTooLong => 0
    case NameContainsIncorrectDigits => 1
    case NameAlreadyUsed => 2
    case CharacterLimitExceeded => 3
  }

  function ReasonCode(r: FriendAddFailure): nat {
    match r
    case PlayerNotOnline => 0
    case CannotInviteSelf => 1
    case AlreadyFriends => 2
  }

  function OutcomeCode(o: FriendAddOutcome): nat {
    match o
    case SentSuccesfully => 0
    case PreviousStillWaiting => 1
  }

  /** The opcode; each phase counts from 0. */
  function OpcodeOf(p: Packet): nat {
    match p
    case GoodKeys => 0
    case BadKeys => 1
    case CharacterList(_) => 0
    case CharacterSelected(_) => 1
    case CharacterCreated(_) => 2
    case CharacterCreationFail(_) => 3
    case MovedToLobby => 0
    case UserJoinedChat(_, _) => 1
    case UserLeftChat(_, _) => 2
    case ChatMsg(_, _, _) => 3
    case WhisperMessage(_, _) => 4
    case FriendOnlineWhileYouLogin(_) => 5
    case FriendLogin(_) => 6
    case FriendLeave(_) => 7
    case NewFriendship(_) => 8
    case BrokenFriendship(_) => 9
    case FriendshipRequest(_) => 10
    case FriendAddFail(_, _) => 11
    case FriendRemovalFail(_) => 12
    case FriendAddResult(_, _) => 13
  }

  function CharacterFields(chars: seq<Entity>): seq<Field> {
    if |chars| == 0 then [] else [Plain(UNSIGNED, chars[0].uid), Str(chars[0].name)] + CharacterFields(chars[1..])
  }

  /** The fields behind the opcode. */
  function Payload(p: Packet): seq<Field> {
    match p
    case GoodKeys => []
    case BadKeys => []
    case CharacterList(chars) => [Plain(SIZE_T, |chars|)] + CharacterFields(chars)
    case CharacterSelected(name) => [Str(name)]
    case CharacterCreated(e) => [Plain(UNSIGNED, e.uid), Str(e.name)]
    case CharacterCreationFail(f) => [Plain(UNSIGNED, FailureCode(f))]
    case MovedToLobby => []
    case UserJoinedChat(room, who) => [Str(room), Str(who)]
    case UserLeftChat(room, who) => [Str(room), Str(who)]
    case ChatMsg(room, who, message) => [Str(room), Str(who), Str(message)]
    case WhisperMessage(who, message) => [Str(who), Str(message)]
    case FriendAddFail(reason, nick) => [Plain(UNSIGNED, ReasonCode(reason)), Str(nick)]
    case FriendAddResult(outcome, nick) => [Plain(UNSIGNED, OutcomeCode(outcome)), Str(nick)]
    case _ => [Str(p.nick)]
  }

  function Bytes(p: Packet): Text {
    Encode([Plain(OPCODE, OpcodeOf(p))] + Payload(p))
  }

  /** The packet fits the buffer, and its numbers their types. */
  predicate Sendable(p: Packet) {
    |Bytes(p)| <= BUFFER_SIZE && AllEncodable(Payload(p))
  }

  // ---------------------------------------------------------------- The client

  function FailureOf(code: nat): Option<CreationFailure> {
    if code == 0 then Some(NameTooLong)
    else if code == 1 then Some(NameContainsIncorrectDigits)
    else if code == 2 then Some(NameAlreadyUsed)
    else if code == 3 then Some(CharacterLimitExceeded)
    else None
  }

  function ReasonOf(code: nat): Option<FriendAddFailure> {
    if code == 0 then Some(PlayerNotOnline)
    else if code == 1 then Some(CannotInviteSelf)
    else if code == 2 then Some(AlreadyFriends)
    else None
  }

  function OutcomeOf(code: nat): Option<FriendAddOutcome> {
    if code == 0 then Some(SentSuccesfully) else if code == 1 then Some(PreviousStillWaiting) else None
  }

  /** The client's loop over a counted list. */
  function ReadCharacters(data: Text, pos: nat, count: nat): Read<seq<Entity>>
    decreases count
  {
    if count == 0 then Got([], pos) else
    match ReadPlain(data, pos, UNSIGNED)
    case Underflow => Underflow
    case Got(uid, at) =>
      match ReadString(data, at)
      case Underflow => Underflow
      case Got(name, next) =>
        match ReadCharacters(data, next, count - 1)
        case Underflow => Underflow
        case Got(rest, end) => Got([Entity(uid, name)] + rest, end)
  }

  /** What stands behind an opcode other than a character list. */
  function ShapesFor(phase: Phase, opcode: nat): seq<Shape> {
    match phase
    case LobbyPhase =>
      if opcode == 1 then [StrShape]
      else if opcode == 2 then [PlainShape(UNSIGNED), StrShape]
      else if opcode == 3 then [PlainShape(UNSIGNED)]
      else []
    case IngamePhase =>
      if opcode == 1 || opcode == 2 || opcode == 4 then [StrShape, StrShape]
      else if opcode == 3 then [StrShape, StrShape, StrShape]
      else if opcode == 11 || opcode == 13 then [PlainShape(UNSIGNED), StrShape]
      else if 5 <= opcode <= 12 then [StrShape]
      else []
    case _ => []
  }

  function Build(phase: Phase, opcode: nat, fs: seq<Field>): Option<Packet>
    requires Shapes(fs) == ShapesFor(phase, opcode)
  {
    assert forall i | 0 <= i < |fs| :: ShapeOf(fs[i]) == ShapesFor(phase, opcode)[i];
    match phase
    case PreauthPhase =>
      if opcode == 0 then Some(GoodKeys) else if opcode == 1 then Some(BadKeys) else None
    case LobbyPhase =>
      if opcode == 1 then Some(CharacterSelected(fs[0].text))
      else if opcode == 2 then Some(CharacterCreated(Entity(fs[0].value, fs[1].text)))
      else if opcode == 3 then
        match FailureOf(fs[0].value) { case Some(f) => Some(CharacterCreationFail(f)) case None => None }
      else None
    case IngamePhase =>
      if opcode == 0 then Some(MovedToLobby)
      else if opcode == 1 then Some(UserJoinedChat(fs[0].text, fs[1].text))
      else if opcode == 2 then Some(UserLeftChat(fs[0].text, fs[1].text))
      else if opcode == 3 then Some(ChatMsg(fs[0].text, fs[1].text, fs[2].text))
      else if opcode == 4 then Some(WhisperMessage(fs[0].text, fs[1].text))
      else if opcode == 5 then Some(FriendOnlineWhileYouLogin(fs[0].text))
      else if opcode == 6 then Some(FriendLogin(fs[0].text))
      else if opcode == 7 then Some(FriendLeave(fs[0].text))
      else if opcode == 8 then Some(NewFriendship(fs[0].text))
      else if opcode == 9 then Some(BrokenFriendship(fs[0].text))
      else if opcode == 10 then Some(FriendshipRequest(fs[0].text))
      else if opcode == 11 then
        match ReasonOf(fs[0].value) { case Some(r) => Some(FriendAddFail(r, fs[1].text)) case None => None }
      else if opcode == 12 then Some(FriendRemovalFail(fs[0].text))
      else if opcode == 13 then
        match OutcomeOf(fs[0].value) { case Some(o) => Some(FriendAddResult(o, fs[1].text)) case None => None }
      else None
    case _ => None
  }

  lemma {:induction false} ReadShapes(data: Text, pos: nat, shapes: seq<Shape>)
    requires ReadFields(data, pos, shapes).Got?
    ensures Shapes(ReadFields(data, pos, shapes).value) == shapes
    decreases |shapes|
  {
    if |shapes| > 0 {
      var Got(f, at) := ReadField(data, pos, shapes[0]);
      ReadShapes(data, at, shapes[1..]);
      assert shapes == [shapes[0]] + shapes[1..];
    }
  }

  /** What the client makes of a packet: it shows one, reports something unknown, or does not survive the
      underflow exception, which nobody catches. */
  datatype Reading = Shows(packet: Packet) | Reports | Dies

  /** The client's decoder: by his phase, the opcode and the fields behind it. */
  function ClientRead(phase: Phase, data: Text): Reading {
    match ReadPlain(data, 0, OPCODE)
    case Underflow => Dies
    case Got(opcode, pos) =>
      if phase == LobbyPhase && opcode == 0 then
        match ReadPlain(data, pos, SIZE_T) {
          case Underflow => Dies
          case Got(count, at) =>
            match ReadCharacters(data, at, count) {
              case Underflow => Dies
              case Got(chars, _) => Shows(CharacterList(chars))
            }
        }
      else
        match ReadFields(data, pos, ShapesFor(phase, opcode)) {
          case Underflow => Dies
          case Got(fs, _) =>
            ReadShapes(data, pos, ShapesFor(phase, opcode));
            match Build(phase, opcode, fs) {
              case Some(p) => Shows(p)
              case None => Reports
            }
        }
  }

  // ---------------------------------------------------------------- Round trip

  lemma EncodeHead(f: Field, rest: seq<Field>)
    ensures Encode([f] + rest) == EncodeField(f) + Encode(rest)
  {
    var fs := [f] + rest;
    assert fs[0] == f && fs[1..] == rest;
  }

  /** The encoding of a list begins with the encodings of an id and a name. */
  lemma {:induction false} EncodePair(chars: seq<Entity>)
    requires |chars| > 0
    ensures Encode(CharacterFields(chars))
         == EncodeField(Plain(UNSIGNED, chars[0].uid))
           + (EncodeField(Str(chars[0].name)) + Encode(CharacterFields(chars[1..])))
  {
    var uid, name, rest := Plain(UNSIGNED, chars[0].uid), Str(chars[0].name), CharacterFields(chars[1..]);
    PairFirst(uid, name, rest);
    EncodeHead(uid, [name] + rest);
    EncodeHead(name, rest);
  }

  lemma PairFirst(uid: Field, name: Field, rest: seq<Field>)
    ensures [uid, name] + rest == [uid] + ([name] + rest)
  {
  }

  lemma {:induction false} PairEncodable(chars: seq<Entity>)
    requires |chars| > 0 && AllEncodable(CharacterFields(chars))
    ensures Encodable(Plain(UNSIGNED, chars[0].uid)) && Encodable(Str(chars[0].name))
    ensures AllEncodable(CharacterFields(chars[1..]))
  {
    var fs, rest := CharacterFields(chars), CharacterFields(chars[1..]);
    assert fs[0] == Plain(UNSIGNED, chars[0].uid) && fs[1] == Str(chars[0].name);
    forall i | 0 <= i < |rest|
      ensures Encodable(rest[i])
    {
      assert rest[i] == fs[i + 2];
    }
  }

  lemma ThreeParts(data: Text, pos: nat, one: Text, two: Text, three: Text)
    requires StandsAt(data, pos, one + (two + three))
    ensures StandsAt(data, pos, one) && StandsAt(data, pos + |one|, two) && StandsAt(data, pos + |one| + |two|, three)
  {
    StandsInParts(data, pos, one, two + three);
    StandsInParts(data, pos + |one|, two, three);
  }

  lemma PairReads(data: Text, pos: nat, uid: nat, name: Text, at: nat)
    requires Encodable(Plain(UNSIGNED, uid)) && Encodable(Str(name)) && at == pos + UNSIGNED
    requires StandsAt(data, pos, EncodeField(Plain(UNSIGNED, uid))) && StandsAt(data, at, EncodeField(Str(name)))
    ensures ReadPlain(data, pos, UNSIGNED) == Got(uid, at)
    ensures ReadString(data, at) == Got(name, at + |EncodeField(Str(name))|)
  {
    FieldRoundTrip(data, pos, Plain(UNSIGNED, uid));
    FieldRoundTrip(data, at, Str(name));
  }

  lemma PairWidth(uid: nat)
    ensures |EncodeField(Plain(UNSIGNED, uid))| == UNSIGNED
  {
  }

  /** An id, a name, and what follows. */
  lemma PairCons(data: Text, pos: nat, uid: nat, name: Text, one: Text, two: Text, rest: Text)
    requires Encodable(Plain(UNSIGNED, uid)) && Encodable(Str(name))
    requires one == EncodeField(Plain(UNSIGNED, uid)) && two == EncodeField(Str(name))
    requires StandsAt(data, pos, one + (two + rest))
    ensures ReadPlain(data, pos, UNSIGNED) == Got(uid, pos + UNSIGNED)
    ensures ReadString(data, pos + UNSIGNED) == Got(name, pos + UNSIGNED + |two|)
    ensures StandsAt(data, pos + UNSIGNED + |two|, rest)
    ensures |one + (two + rest)| == UNSIGNED + |two| + |rest|
  {
    PairWidth(uid);
    ThreeParts(data, pos, one, two, rest);
    PairReads(data, pos, uid, name, pos + UNSIGNED);
  }

  lemma {:induction false} CharactersCons(data: Text, pos: nat, chars: seq<Entity>) returns (at: nat, next: nat)
    requires |chars| > 0 && AllEncodable(CharacterFields(chars))
    requires StandsAt(data, pos, Encode(CharacterFields(chars)))
    ensures ReadPlain(data, pos, UNSIGNED) == Got(chars[0].uid, at)
    ensures ReadString(data, at) == Got(chars[0].name, next)
    ensures AllEncodable(CharacterFields(chars[1..]))
    ensures StandsAt(data, next, Encode(CharacterFields(chars[1..])))
    ensures pos + |Encode(CharacterFields(chars))| == next + |Encode(CharacterFields(chars[1..]))|
  {
    var one, two := EncodeField(Plain(UNSIGNED, chars[0].uid)), EncodeField(Str(chars[0].name));
    at := pos + UNSIGNED;
    next := at + |two|;
    PairEncodable(chars);
    EncodePair(chars);
    PairCons(data, pos, chars[0].uid, chars[0].name, one, two, Encode(CharacterFields(chars[1..])));
  }

  lemma ReadCharactersCons(data: Text, pos: nat, chars: seq<Entity>, at: nat, next: nat, end: nat)
    requires |chars| > 0
    requires ReadPlain(data, pos, UNSIGNED) == Got(chars[0].uid, at) && ReadString(data, at) == Got(chars[0].name, next)
    requires ReadCharacters(data, next, |chars| - 1) == Got(chars[1..], end)
    ensures ReadCharacters(data, pos, |chars|) == Got(chars, end)
  {
    assert chars == [chars[0]] + chars[1..];
  }

  /** The counted list decodes to itself with the client's loop. */
  lemma {:induction false} CharactersRoundTrip(data: Text, pos: nat, chars: seq<Entity>)
    requires AllEncodable(CharacterFields(chars)) && StandsAt(data, pos, Encode(CharacterFields(chars)))
    ensures ReadCharacters(data, pos, |chars|) == Got(chars, pos + |Encode(CharacterFields(chars))|)
    decreases |chars|
  {
    if |chars| == 0 {
      EmptyCharacters(data, pos, chars);
    } else {
      var at, next := CharactersCons(data, pos, chars);
      var end := pos + |Encode(CharacterFields(chars))|;
      assert ReadCharacters(data, next, |chars| - 1) == Got(chars[1..], end) by {
        CharactersRoundTrip(data, next, chars[1..]);
      }
      ReadCharactersCons(data, pos, chars, at, next, end);
    }
  }

  lemma EmptyCharacters(data: Text, pos: nat, chars: seq<Entity>)
    requires |chars| == 0
    ensures ReadCharacters(data, pos, |chars|) == Got(chars, pos + |Encode(CharacterFields(chars))|)
  {
  }

  lemma BuildRoundTrip(phase: Phase, p: Packet)
    requires Advance(phase, p) != Confused && !p.CharacterList?
    ensures Shapes(Payload(p)) == ShapesFor(phase, OpcodeOf(p))
    ensures Build(phase, OpcodeOf(p), Payload(p)) == Some(p)
    ensures !(phase == LobbyPhase && OpcodeOf(p) == 0)
  {
  }

  lemma WholeStands(bytes: Text)
    ensures StandsAt(bytes, 0, bytes)
  {
    assert bytes[0..|bytes|] == bytes;
  }

  lemma OpcodeRoundTrip(p: Packet)
    ensures ReadPlain(Bytes(p), 0, OPCODE) == Got(OpcodeOf(p), OPCODE)
    ensures StandsAt(Bytes(p), OPCODE, Encode(Payload(p)))
  {
    var opcode := Plain(OPCODE, OpcodeOf(p));
    var fs := [opcode] + Payload(p);
    assert fs[0] == opcode && fs[1..] == Payload(p);
    WholeStands(Bytes(p));
    EncodeCons(Bytes(p), 0, fs);
    assert OpcodeOf(p) < Capacity(OPCODE) by {
      assert Capacity(1) == 256 * Capacity(0);
    }
    FieldRoundTrip(Bytes(p), 0, opcode);
  }

  lemma ListPacketRoundTrip(chars: seq<Entity>)
    requires Sendable(CharacterList(chars))
    ensures ClientRead(LobbyPhase, Bytes(CharacterList(chars))) == Shows(CharacterList(chars))
  {
    OpcodeRoundTrip(CharacterList(chars));
    ListRoundTrip(Bytes(CharacterList(chars)), OPCODE, chars);
  }

  lemma ReadOther(phase: Phase, data: Text, opcode: nat, fs: seq<Field>, end: nat)
    requires ReadPlain(data, 0, OPCODE) == Got(opcode, OPCODE) && !(phase == LobbyPhase && opcode == 0)
    requires Shapes(fs) == ShapesFor(phase, opcode) && ReadFields(data, OPCODE, Shapes(fs)) == Got(fs, end)
    requires Build(phase, opcode, fs).Some?
    ensures ClientRead(phase, data) == Shows(Build(phase, opcode, fs).value)
  {
  }

  lemma OtherPacketRoundTrip(phase: Phase, p: Packet)
    requires Sendable(p) && Advance(phase, p) != Confused && !p.CharacterList?
    ensures ClientRead(phase, Bytes(p)) == Shows(p)
  {
    var end := OPCODE + |Encode(Payload(p))|;
    assert ReadFields(Bytes(p), OPCODE, Shapes(Payload(p))) == Got(Payload(p), end) by {
      OpcodeRoundTrip(p);
      RoundTrip(Bytes(p), OPCODE, Payload(p));
    }
    assert ReadPlain(Bytes(p), 0, OPCODE) == Got(OpcodeOf(p), OPCODE) by {
      OpcodeRoundTrip(p);
    }
    BuildRoundTrip(phase, p);
    ReadOther(phase, Bytes(p), OpcodeOf(p), Payload(p), end);
  }

  /** In the phase for which it was encoded, a packet that fits the buffer decodes to itself. */
  lemma PacketRoundTrip(phase: Phase, p: Packet)
    requires Sendable(p) && Advance(phase, p) != Confused
    ensures ClientRead(phase, Bytes(p)) == Shows(p)
  {
    if p.CharacterList? {
      ListPacketRoundTrip(p.chars);
    } else {
      OtherPacketRoundTrip(phase, p);
    }
  }

  lemma ListRoundTrip(data: Text, pos: nat, chars: seq<Entity>)
    requires AllEncodable(Payload(CharacterList(chars))) && StandsAt(data, pos, Encode(Payload(CharacterList(chars))))
    ensures ReadPlain(data, pos, SIZE_T).Got? && ReadPlain(data, pos, SIZE_T).value == |chars|
    ensures var Got(count, at) := ReadPlain(data, pos, SIZE_T);
            ReadCharacters(data, at, count).Got? && ReadCharacters(data, at, count).value == chars
  {
    var fs := Payload(CharacterList(chars));
    var list := CharacterFields(chars);
    assert fs[0] == Plain(SIZE_T, |chars|) && fs[1..] == list;
    assert forall i | 0 <= i < |list| :: list[i] == fs[i + 1];
    EncodeCons(data, pos, fs);
    FieldRoundTrip(data, pos, fs[0]);
    CharactersRoundTrip(data, pos + |EncodeField(fs[0])|, chars);
  }

  // ---------------------------------------------------------------- The character list

  function SizeOfField(f: Field): nat {
    match f
    case Plain(width, _) => width
    case Str(text) => UNSIGNED + |text|
  }

  /** The number of bytes that a list of fields takes. */
  function Size(fields: seq<Field>): nat {
    if |fields| == 0 then 0 else SizeOfField(fields[0]) + Size(fields[1..])
  }

  lemma {:induction false} SizeIsLength(fields: seq<Field>)
    ensures |Encode(fields)| == Size(fields)
    decreases |fields|
  {
    if |fields| > 0 {
      SizeIsLength(fields[1..]);
      assert |EncodeField(fields[0])| == SizeOfField(fields[0]);
    }
  }

  lemma HeadSize(f: Field, rest: seq<Field>)
    ensures Size([f] + rest) == SizeOfField(f) + Size(rest)
  {
    assert ([f] + rest)[1..] == rest;
  }

  lemma {:induction false} SizeOfParts(one: seq<Field>, other: seq<Field>)
    ensures Size(one + other) == Size(one) + Size(other)
    decreases |one|
  {
    var all := one + other;
    if |one| > 0 {
      SizeOfParts(one[1..], other);
      assert all[0] == one[0] && all[1..] == one[1..] + other;
    } else {
      assert all == other;
    }
  }

  lemma PairIs(e: Entity, rest: seq<Field>)
    ensures Size([Plain(UNSIGNED, e.uid), Str(e.name)] + rest) == UNSIGNED + UNSIGNED + |e.name| + Size(rest)
  {
    HeadSize(Str(e.name), rest);
    HeadSize(Plain(UNSIGNED, e.uid), [Str(e.name)] + rest);
    assert [Plain(UNSIGNED, e.uid), Str(e.name)] + rest == [Plain(UNSIGNED, e.uid)] + ([Str(e.name)] + rest);
  }

  lemma {:induction false} CharactersSize(chars: seq<Entity>)
    requires forall i :: 0 <= i < |chars| ==> |chars[i].name| <= NAME_LIMIT
    ensures Size(CharacterFields(chars)) <= |chars| * (UNSIGNED + UNSIGNED + NAME_LIMIT)
    decreases |chars|
  {
    if |chars| > 0 {
      CharactersSize(chars[1..]);
      PairIs(chars[0], CharacterFields(chars[1..]));
    }
  }

  /** Five characters with names of at most 20 bytes always fit: the lobby never overruns its buffer. */
  lemma CharacterListFits(chars: seq<Entity>)
    requires |chars| <= CHARACTER_LIMIT && forall i :: 0 <= i < |chars| ==> |chars[i].name| <= NAME_LIMIT
    ensures |Bytes(CharacterList(chars))| <= 149 <= BUFFER_SIZE
  {
    CharactersSize(chars);
    HeadSize(Plain(OPCODE, 0), Payload(CharacterList(chars)));
    HeadSize(Plain(SIZE_T, |chars|), CharacterFields(chars));
    SizeIsLength([Plain(OPCODE, 0)] + Payload(CharacterList(chars)));
  }

  /** The loop of the packet constructor. */
  method WriteCharacterList(buffer: array<Byte>, chars: seq<Entity>) returns (size: nat)
    requires buffer.Length == BUFFER_SIZE && |Bytes(CharacterList(chars))| <= BUFFER_SIZE
    modifies buffer
    ensures size <= BUFFER_SIZE && buffer[..size] == Bytes(CharacterList(chars))
  {
    var bs := new BinarySerializer(buffer);
    ghost var head := [Plain(OPCODE, 0), Plain(SIZE_T, |chars|)];
    ghost var all := [Plain(OPCODE, 0)] + Payload(CharacterList(chars));
    HeadFits(head, CharacterFields(chars), all);
    bs.WritePlain(0, OPCODE);
    bs.WritePlain(|chars|, SIZE_T);
    assert bs.fields == head;
    var i := 0;
    while i < |chars|
      invariant i <= |chars| && bs.Valid() && bs.buffer == buffer
      invariant bs.fields + CharacterFields(chars[i..]) == all
      invariant bs.currentPos == Size(bs.fields)
    {
      ghost var e, rest := chars[i], CharacterFields(chars[i + 1..]);
      NextPair(bs.fields, chars, i, all);
      WriteOne(bs, chars[i], rest);
      i := i + 1;
    }
    assert bs.fields == all;
    size := bs.GetCurrentSize();
  }

  lemma HeadFits(head: seq<Field>, list: seq<Field>, all: seq<Field>)
    requires |head| == 2 && head[0].Plain? && head[1].Plain? && head[0].width == OPCODE && head[1].width == SIZE_T
    requires all == [head[0]] + ([head[1]] + list) && |Encode(all)| <= BUFFER_SIZE
    ensures head + list == all && Size(head) == OPCODE + SIZE_T && Size(all) <= BUFFER_SIZE
    ensures OPCODE + SIZE_T <= BUFFER_SIZE
  {
    SizeIsLength(all);
    HeadSize(head[0], [head[1]]);
    HeadSize(head[1], []);
    assert head == [head[0]] + [head[1]] && [head[1]] + [] == [head[1]];
  }

  lemma NextPair(written: seq<Field>, chars: seq<Entity>, i: nat, all: seq<Field>)
    requires i < |chars| && written + CharacterFields(chars[i..]) == all
    ensures written + [Plain(UNSIGNED, chars[i].uid), Str(chars[i].name)] + CharacterFields(chars[i + 1..]) == all
  {
    assert chars[i..][1..] == chars[i + 1..];
  }

  lemma PairSize(written: seq<Field>, e: Entity, rest: seq<Field>)
    ensures Size(written + [Plain(UNSIGNED, e.uid), Str(e.name)] + rest) >= Size(written) + UNSIGNED + UNSIGNED
            + |e.name|
  {
    var pair := [Plain(UNSIGNED, e.uid), Str(e.name)];
    SizeOfParts(written + pair, rest);
    SizeOfParts(written, pair);
    PairIs(e, []);
    assert pair + [] == pair;
  }

  /** The body of the loop. */
  method WriteOne(bs: BinarySerializer, e: Entity, ghost rest: seq<Field>)
    requires bs.Valid() && bs.currentPos == Size(bs.fields)
    requires Size(bs.fields + [Plain(UNSIGNED, e.uid), Str(e.name)] + rest) <= BUFFER_SIZE
    modifies bs, bs.buffer
    ensures bs.Valid() && bs.currentPos == Size(bs.fields)
    ensures bs.fields == old(bs.fields) + [Plain(UNSIGNED, e.uid), Str(e.name)]
  {
    PairSize(bs.fields, e, rest);
    ghost var before := bs.fields;
    bs.WritePlain(e.uid, UNSIGNED);
    bs.WriteString(e.name);
    SizeIsLength(bs.fields);
    SizeIsLength(before);
    SizeOfParts(before, [Plain(UNSIGNED, e.uid), Str(e.name)]);
    PairIs(e, []);
    assert [Plain(UNSIGNED, e.uid), Str(e.name)] + [] == [Plain(UNSIGNED, e.uid), Str(e.name)];
    assert bs.fields == before + [Plain(UNSIGNED, e.uid), Str(e.name)];
  }
}
