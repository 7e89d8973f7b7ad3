/** The packets that a client writes, and what the server reads them as. */
module RequestPackets {
  import opened Basics
  import opened Codec
  import opened Sessions

  // ---------------------------------------------------------------- The client's side

  /** A command in the world. */
  function IngameFields(r: IngameRequest): seq<Field>
    requires !r.NoIngameRequest? && !r.BadIngameRequest?
  {
    match r
    case LogOffToLobby => [Plain(OPCODE, 0)]
    case JoinChat(room) => [Plain(OPCODE, 1), Str(room)]
    case LeaveChat(room) => [Plain(OPCODE, 2), Str(room)]
    case SendChatMsg(room, message) => [Plain(OPCODE, 3), Str(room), Str(message)]
    case SendWhisper(recipient, message) => [Plain(OPCODE, 4), Str(recipient), Str(message)]
    case FriendAdd(nick) => [Plain(OPCODE, 5), Str(nick)]
    case FriendRemove(nick) => [Plain(OPCODE, 6), Str(nick)]
  }

  /** A command in the lobby. */
  function LobbyFields(r: LobbyRequest): seq<Field>
    requires !r.NoLobbyRequest? && !r.BadLobbyRequest?
  {
    match r
    case Select(name) => [Plain(OPCODE, 0), Str(name)]
    case Create(name) => [Plain(OPCODE, 1), Str(name)]
    case Delete(name) => [Plain(OPCODE, 2), Str(name)]
    case LogOff => [Plain(OPCODE, 3)]
  }

  /** The first packet. */
  function HelloFields(key: Text, login: Text): seq<Field> {
    [Plain(OPCODE, 0), Str(key), Str(login)]
  }

  /** The packet begins with these fields; the server does not look at what follows. */
  predicate Begins(data: Text, fields: seq<Field>) {
    StandsAt(data, 0, Encode(fields))
  }

  lemma WrittenBegins(fields: seq<Field>, more: Text)
    ensures Begins(Encode(fields) + more, fields)
  {
    assert (Encode(fields) + more)[0..|Encode(fields)|] == Encode(fields);
  }

  // ---------------------------------------------------------------- Reading fields one by one

  /** The strings of a request are as long as a packet at most. */
  predicate Short(text: Text) {
    |text| <= BUFFER_SIZE
  }

  lemma ShortIsEncodable(opcode: nat, texts: seq<Field>)
    requires opcode < 256 && forall i :: 0 <= i < |texts| ==> texts[i].Str? && Short(texts[i].text)
    ensures AllEncodable([Plain(OPCODE, opcode)] + texts)
  {
    LargestUnsigned();
    assert Capacity(OPCODE) == 256 * Capacity(0);
  }

  lemma OneField(data: Text, opcode: nat)
    requires opcode < 256 && |data| <= BUFFER_SIZE
    ensures Begins(data, [Plain(OPCODE, opcode)]) <==> ReadPlain(data, 0, OPCODE) == Got(opcode, OPCODE)
  {
    var fields := [Plain(OPCODE, opcode)];
    LargestUnsigned();
    ShortIsEncodable(opcode, []);
    assert fields == [Plain(OPCODE, opcode)] + [];
    if Begins(data, fields) {
      RoundTrip(data, 0, fields);
    } else if ReadPlain(data, 0, OPCODE) == Got(opcode, OPCODE) {
      DecodedBegins(data, fields, OPCODE);
    }
  }

  /** What was decoded to the fields begins with them. */
  lemma DecodedBegins(data: Text, fields: seq<Field>, end: nat)
    requires |data| <= BUFFER_SIZE && ReadFields(data, 0, Shapes(fields)) == Got(fields, end)
    ensures Begins(data, fields)
  {
    LargestUnsigned();
    DecodedIsEncoding(data, 0, Shapes(fields));
  }

  lemma FirstOf(data: Text, pos: nat, f: Field, rest: seq<Field>, end: nat)
    ensures ReadFields(data, pos, Shapes([f] + rest)) == Got([f] + rest, end)
       <==> exists at ::
              ReadField(data, pos, ShapeOf(f)) == Got(f, at) && ReadFields(data, at, Shapes(rest)) == Got(rest, end)
  {
    var fields := [f] + rest;
    assert fields[1..] == rest && Shapes(fields)[1..] == Shapes(rest);
    if ReadFields(data, pos, Shapes(fields)) == Got(fields, end) {
      var Got(g, at) := ReadField(data, pos, ShapeOf(f));
      var Got(fs, _) := ReadFields(data, at, Shapes(rest));
      assert ([g] + fs)[0] == g && ([g] + fs)[1..] == fs;
    }
  }

  lemma LastText(data: Text, pos: nat, text: Text, end: nat)
    ensures ReadFields(data, pos, Shapes([Str(text)])) == Got([Str(text)], end)
       <==> ReadString(data, pos) == Got(text, end)
  {
    FirstOf(data, pos, Str(text), [], end);
    assert [Str(text)] + [] == [Str(text)] && Shapes([]) == [];
    if ReadString(data, pos) == Got(text, end) {
      assert ReadFields(data, end, []) == Got([], end);
    }
  }

  lemma OpcodeFirst(data: Text, opcode: nat, rest: seq<Field>, end: nat)
    ensures ReadFields(data, 0, Shapes([Plain(OPCODE, opcode)] + rest)) == Got([Plain(OPCODE, opcode)] + rest, end)
       <==> && ReadPlain(data, 0, OPCODE) == Got(opcode, OPCODE)
            && ReadFields(data, OPCODE, Shapes(rest)) == Got(rest, end)
  {
    FirstOf(data, 0, Plain(OPCODE, opcode), rest, end);
    if ReadPlain(data, 0, OPCODE) == Got(opcode, OPCODE) {
      assert ReadField(data, 0, PlainShape(OPCODE)) == Got(Plain(OPCODE, opcode), OPCODE);
    }
  }

  lemma TextFirst(data: Text, pos: nat, text: Text, rest: seq<Field>, end: nat)
    ensures ReadFields(data, pos, Shapes([Str(text)] + rest)) == Got([Str(text)] + rest, end)
       <==> var at := pos + UNSIGNED + |text|;
            ReadString(data, pos) == Got(text, at) && ReadFields(data, at, Shapes(rest)) == Got(rest, end)
  {
    FirstOf(data, pos, Str(text), rest, end);
    if ReadString(data, pos) == Got(text, pos + UNSIGNED + |text|) {
      assert ReadField(data, pos, StrShape) == Got(Str(text), pos + UNSIGNED + |text|);
    }
  }

  /** The packet begins with the fields exactly when they are read from it. */
  lemma BeginsExactly(data: Text, opcode: nat, texts: seq<Field>)
    requires opcode < 256 && |data| <= BUFFER_SIZE
    requires forall i :: 0 <= i < |texts| ==> texts[i].Str? && Short(texts[i].text)
    ensures var fields := [Plain(OPCODE, opcode)] + texts;
            Begins(data, fields) <==> ReadFields(data, 0, Shapes(fields)) == Got(fields, |Encode(fields)|)
  {
    var fields := [Plain(OPCODE, opcode)] + texts;
    ShortIsEncodable(opcode, texts);
    if Begins(data, fields) {
      RoundTrip(data, 0, fields);
    } else if ReadFields(data, 0, Shapes(fields)) == Got(fields, |Encode(fields)|) {
      DecodedBegins(data, fields, |Encode(fields)|);
    }
  }

  lemma SizeOfTexts(opcode: nat, one: Text, two: Text)
    ensures |Encode([Plain(OPCODE, opcode)] + [Str(one)])| == OPCODE + UNSIGNED + |one|
    ensures |Encode([Plain(OPCODE, opcode)] + ([Str(one)] + [Str(two)]))|
         == OPCODE + UNSIGNED + |one| + UNSIGNED + |two|
  {
    EncodeOneMore(Str(one), []);
    EncodeOneMore(Str(two), []);
    EncodeOneMore(Str(one), [Str(two)]);
    assert [Str(one)] + [] == [Str(one)] && [Str(two)] + [] == [Str(two)];
    EncodeOneMore(Plain(OPCODE, opcode), [Str(one)]);
    EncodeOneMore(Plain(OPCODE, opcode), [Str(one)] + [Str(two)]);
  }

  lemma TwoFields(data: Text, opcode: nat, text: Text)
    requires opcode < 256 && |data| <= BUFFER_SIZE
    ensures Begins(data, [Plain(OPCODE, opcode), Str(text)])
       <==> && ReadPlain(data, 0, OPCODE) == Got(opcode, OPCODE)
            && ReadString(data, OPCODE) == Got(text, OPCODE + UNSIGNED + |text|)
  {
    var end := OPCODE + UNSIGNED + |text|;
    assert [Plain(OPCODE, opcode)] + [Str(text)] == [Plain(OPCODE, opcode), Str(text)];
    SizeOfTexts(opcode, text, []);
    if Short(text) {
      BeginsExactly(data, opcode, [Str(text)]);
      OpcodeFirst(data, opcode, [Str(text)], end);
      LastText(data, OPCODE, text, end);
    }
  }

  lemma ThreeFields(data: Text, opcode: nat, one: Text, two: Text)
    requires opcode < 256 && |data| <= BUFFER_SIZE
    ensures Begins(data, [Plain(OPCODE, opcode), Str(one), Str(two)])
       <==> var at := OPCODE + UNSIGNED + |one|;
            && ReadPlain(data, 0, OPCODE) == Got(opcode, OPCODE)
            && ReadString(data, OPCODE) == Got(one, at)
            && ReadString(data, at) == Got(two, at + UNSIGNED + |two|)
  {
    var at := OPCODE + UNSIGNED + |one|;
    var end := at + UNSIGNED + |two|;
    assert [Plain(OPCODE, opcode)] + ([Str(one)] + [Str(two)]) == [Plain(OPCODE, opcode), Str(one), Str(two)];
    SizeOfTexts(opcode, one, two);
    if Short(one) && Short(two) {
      BeginsExactly(data, opcode, [Str(one)] + [Str(two)]);
      OpcodeFirst(data, opcode, [Str(one)] + [Str(two)], end);
      TextFirst(data, OPCODE, one, [Str(two)], end);
      LastText(data, at, two, end);
    }
  }

  // ---------------------------------------------------------------- What the server reads

  /** The server reads a request exactly from the packets that begin with it as the client writes it. */
  lemma IngameReadsExactly(data: Text, r: IngameRequest)
    requires |data| <= BUFFER_SIZE && !r.NoIngameRequest? && !r.BadIngameRequest?
    ensures ReadIngameRequest(data) == r <==> Begins(data, IngameFields(r))
  {
    match r
    case LogOffToLobby => OneField(data, 0);
    case JoinChat(room) => TwoFields(data, 1, room);
    case LeaveChat(room) => TwoFields(data, 2, room);
    case SendChatMsg(_, _) => TextsReadExactly(data, r);
    case SendWhisper(_, _) => TextsReadExactly(data, r);
    case FriendAdd(nick) => TwoFields(data, 5, nick);
    case FriendRemove(nick) => TwoFields(data, 6, nick);
  }

  lemma TextsReadExactly(data: Text, r: IngameRequest)
    requires |data| <= BUFFER_SIZE && (r.SendChatMsg? || r.SendWhisper?)
    ensures ReadIngameRequest(data) == r <==> Begins(data, IngameFields(r))
  {
    match r
    case SendChatMsg(room, message) => ThreeFields(data, 3, room, message);
    case SendWhisper(recipient, message) => ThreeFields(data, 4, recipient, message);
  }

  /** The packet of a request. */
  function Written(r: IngameRequest): Text
    requires !r.NoIngameRequest? && !r.BadIngameRequest?
  {
    Encode(IngameFields(r))
  }

  /** Round trip: whatever follows in the packet. */
  lemma RequestRoundTrip(r: IngameRequest, more: Text)
    requires !r.NoIngameRequest? && !r.BadIngameRequest? && |Written(r) + more| <= BUFFER_SIZE
    ensures ReadIngameRequest(Written(r) + more) == r
  {
    WrittenBegins(IngameFields(r), more);
    IngameReadsExactly(Written(r) + more, r);
  }

  lemma LobbyReadsExactly(data: Text, r: LobbyRequest)
    requires |data| <= BUFFER_SIZE && !r.NoLobbyRequest? && !r.BadLobbyRequest?
    ensures ReadLobbyRequest(data) == r <==> Begins(data, LobbyFields(r))
  {
    match r
    case Select(name) => TwoFields(data, 0, name);
    case Create(name) => TwoFields(data, 1, name);
    case Delete(name) => TwoFields(data, 2, name);
    case LogOff => OneField(data, 3);
  }

  /** The server takes a hello for keys exactly when it begins with a key of 64 bytes and a login. */
  lemma HelloReadsExactly(data: Text, key: Text, login: Text)
    requires 0 < |data| <= BUFFER_SIZE
    ensures ReadHello(data) == Keys(key, login) <==> |key| == 64 && Begins(data, HelloFields(key, login))
    ensures |key| != 64 && Begins(data, HelloFields(key, login)) ==> ReadHello(data) == BadHello
  {
    ThreeFields(data, 0, key, login);
  }

  /** Every other opcode is no request, or an unknown hello; and a packet without an opcode is a bad one. */
  lemma OtherOpcodes(data: Text)
    ensures ReadIngameRequest(data).NoIngameRequest? <==> |data| > 0 && data[0] > 6
    ensures ReadLobbyRequest(data).NoLobbyRequest? <==> |data| > 0 && data[0] > 3
    ensures |data| > 0 ==> (ReadHello(data).UnknownHello? <==> data[0] > 0)
    ensures |data| == 0 ==> ReadIngameRequest(data).BadIngameRequest? && ReadLobbyRequest(data).BadLobbyRequest?
  {
    if |data| > 0 {
      assert data[0..1] == [data[0]] && data[0..1][1..] == [];
      assert ValueOf(data[0..1]) == data[0] as nat + 256 * ValueOf([]);
    }
  }

  // ---------------------------------------------------------------- Cut packets

  /** The packet breaks off inside of these fields. */
  predicate BreaksOff(data: Text, fields: seq<Field>) {
    |data| < |Encode(fields)| && data == Encode(fields)[..|data|]
  }

  lemma CutFields(data: Text, opcode: nat, texts: seq<Field>)
    requires opcode < 256 && BreaksOff(data, [Plain(OPCODE, opcode)] + texts)
    requires forall i :: 0 <= i < |texts| ==> texts[i].Str? && Short(texts[i].text)
    ensures ReadFields(data, 0, Shapes([Plain(OPCODE, opcode)] + texts)) == Underflow
    ensures |data| > 0 ==>
              && ReadPlain(data, 0, OPCODE) == Got(opcode, OPCODE)
              && ReadFields(data, OPCODE, Shapes(texts)) == Underflow
  {
    var fields := [Plain(OPCODE, opcode)] + texts;
    ShortIsEncodable(opcode, texts);
    assert data[0..] == data;
    PrefixUnderflows(data, 0, fields);
    if |data| > 0 {
      OpcodeStands(data, opcode, texts);
      assert Shapes(fields)[1..] == Shapes(texts);
    }
  }

  lemma OpcodeStands(data: Text, opcode: nat, texts: seq<Field>)
    requires opcode < 256 && |data| > 0 && BreaksOff(data, [Plain(OPCODE, opcode)] + texts)
    ensures ReadPlain(data, 0, OPCODE) == Got(opcode, OPCODE)
  {
    EncodeOneMore(Plain(OPCODE, opcode), texts);
    assert data[0] == Raw(opcode, OPCODE)[0];
    assert data[0..1] == [data[0]] && data[0..1][1..] == [];
    assert ValueOf(data[0..1]) == data[0] as nat + 256 * ValueOf([]);
  }

  lemma CutText(data: Text, opcode: nat, text: Text)
    requires opcode < 256 && Short(text) && |data| > 0 && BreaksOff(data, [Plain(OPCODE, opcode), Str(text)])
    ensures ReadPlain(data, 0, OPCODE) == Got(opcode, OPCODE) && ReadString(data, OPCODE) == Underflow
  {
    assert [Plain(OPCODE, opcode)] + [Str(text)] == [Plain(OPCODE, opcode), Str(text)];
    CutFields(data, opcode, [Str(text)]);
    assert Shapes([Str(text)]) == [StrShape];
    OneTextReads(data, OPCODE);
  }

  lemma OneTextReads(data: Text, pos: nat)
    ensures ReadFields(data, pos, [StrShape]).Got? <==> ReadString(data, pos).Got?
  {
    assert [StrShape][1..] == [];
  }

  lemma TwoTextsRead(data: Text, pos: nat)
    ensures ReadFields(data, pos, [StrShape, StrShape]).Got?
       <==> ReadString(data, pos).Got? && ReadString(data, ReadString(data, pos).pos).Got?
  {
    assert [StrShape, StrShape][1..] == [StrShape];
    if ReadString(data, pos).Got? {
      OneTextReads(data, ReadString(data, pos).pos);
    }
  }

  lemma CutTexts(data: Text, opcode: nat, one: Text, two: Text)
    requires opcode < 256 && Short(one) && Short(two) && |data| > 0
    requires BreaksOff(data, [Plain(OPCODE, opcode), Str(one), Str(two)])
    ensures ReadPlain(data, 0, OPCODE) == Got(opcode, OPCODE)
    ensures ReadString(data, OPCODE).Got? ==> ReadString(data, ReadString(data, OPCODE).pos) == Underflow
  {
    assert [Plain(OPCODE, opcode)] + [Str(one), Str(two)] == [Plain(OPCODE, opcode), Str(one), Str(two)];
    CutFields(data, opcode, [Str(one), Str(two)]);
    assert Shapes([Str(one), Str(two)]) == [StrShape, StrShape];
    TwoTextsRead(data, OPCODE);
  }

  predicate ShortTexts(fields: seq<Field>) {
    forall i :: 0 <= i < |fields| && fields[i].Str? ==> Short(fields[i].text)
  }

  /** A request that breaks off anywhere inside of what is read is a bad one. */
  lemma CutIngameIsBad(data: Text, r: IngameRequest)
    requires !r.NoIngameRequest? && !r.BadIngameRequest?
    requires ShortTexts(IngameFields(r)) && BreaksOff(data, IngameFields(r))
    ensures ReadIngameRequest(data) == BadIngameRequest
  {
    if |data| > 0 {
      match r
      case LogOffToLobby => SizeOfOpcode(0);
      case JoinChat(room) => CutOne(data, 1, room);
      case LeaveChat(room) => CutOne(data, 2, room);
      case SendChatMsg(room, message) => CutTwo(data, 3, room, message);
      case SendWhisper(recipient, message) => CutTwo(data, 4, recipient, message);
      case FriendAdd(nick) => CutOne(data, 5, nick);
      case FriendRemove(nick) => CutOne(data, 6, nick);
    }
  }

  lemma SizeOfOpcode(opcode: nat)
    ensures |Encode([Plain(OPCODE, opcode)])| == OPCODE
  {
    EncodeOneMore(Plain(OPCODE, opcode), []);
    assert [Plain(OPCODE, opcode)] + [] == [Plain(OPCODE, opcode)];
  }

  lemma CutOne(data: Text, opcode: nat, text: Text)
    requires opcode < 256 && |data| > 0 && ShortTexts([Plain(OPCODE, opcode), Str(text)])
    requires BreaksOff(data, [Plain(OPCODE, opcode), Str(text)])
    ensures ReadPlain(data, 0, OPCODE) == Got(opcode, OPCODE) && ReadString(data, OPCODE) == Underflow
  {
    assert [Plain(OPCODE, opcode), Str(text)][1] == Str(text);
    CutText(data, opcode, text);
  }

  lemma CutTwo(data: Text, opcode: nat, one: Text, two: Text)
    requires opcode < 256 && |data| > 0 && ShortTexts([Plain(OPCODE, opcode), Str(one), Str(two)])
    requires BreaksOff(data, [Plain(OPCODE, opcode), Str(one), Str(two)])
    ensures ReadPlain(data, 0, OPCODE) == Got(opcode, OPCODE)
    ensures ReadString(data, OPCODE).Got? ==> ReadString(data, ReadString(data, OPCODE).pos) == Underflow
  {
    assert [Plain(OPCODE, opcode), Str(one), Str(two)][1] == Str(one);
    assert [Plain(OPCODE, opcode), Str(one), Str(two)][2] == Str(two);
    CutTexts(data, opcode, one, two);
  }

  lemma CutLobbyIsBad(data: Text, r: LobbyRequest)
    requires !r.NoLobbyRequest? && !r.BadLobbyRequest? && ShortTexts(LobbyFields(r)) && BreaksOff(data, LobbyFields(r))
    ensures ReadLobbyRequest(data) == BadLobbyRequest
  {
    if |data| > 0 {
      match r
      case Select(name) => CutOne(data, 0, name);
      case Create(name) => CutOne(data, 1, name);
      case Delete(name) => CutOne(data, 2, name);
      case LogOff => SizeOfOpcode(3);
    }
  }

  lemma CutHelloIsBad(data: Text, key: Text, login: Text)
    requires |data| > 0 && ShortTexts(HelloFields(key, login)) && BreaksOff(data, HelloFields(key, login))
    ensures ReadHello(data) == BadHello
  {
    CutTwo(data, 0, key, login);
  }
}
