/** The binary serializer and deserializer: little-endian plain values and counted strings. */
module Codec {
  import opened Basics

  const BUFFER_SIZE: nat := 2048

  /** The width of an unsigned, of an opcode and of a size_t. */
  const UNSIGNED: nat := 4
  const OPCODE: nat := 1
  const SIZE_T: nat := 8

  // ---------------------------------------------------------------- Plain values

  function Capacity(width: nat): (n: nat)
    ensures n > 0
  {
    if width == 0 then 1 else 256 * Capacity(width - 1)
  }

  /** The raw memory of a plain value. */
  function Raw(value: nat, width: nat): (bytes: Text)
    ensures |bytes| == width
  {
    if width == 0 then [] else [(value % 256) as Byte] + Raw(value / 256, width - 1)
  }

  function ValueOf(bytes: Text): nat {
    if |bytes| == 0 then 0 else bytes[0] as nat + 256 * ValueOf(bytes[1..])
  }

  lemma {:induction false} RawRoundTrip(value: nat, width: nat)
    requires value < Capacity(width)
    ensures ValueOf(Raw(value, width)) == value
    decreases width
  {
    if width > 0 {
      RawRoundTrip(value / 256, width - 1);
      assert Raw(value, width)[1..] == Raw(value / 256, width - 1);
    }
  }

  lemma RawStep(first: Byte, rest: nat, width: nat)
    ensures Raw(first as nat + 256 * rest, width + 1) == [first] + Raw(rest, width)
  {
    var v := first as nat + 256 * rest;
    assert v % 256 == first as nat && v / 256 == rest;
  }

  lemma {:induction false} ValueRoundTrip(bytes: Text)
    ensures ValueOf(bytes) < Capacity(|bytes|) && Raw(ValueOf(bytes), |bytes|) == bytes
    decreases |bytes|
  {
    if |bytes| > 0 {
      ValueRoundTrip(bytes[1..]);
      RawStep(bytes[0], ValueOf(bytes[1..]), |bytes| - 1);
      assert bytes == [bytes[0]] + bytes[1..];
    }
  }

  /** The bytes come from the lowest to the highest. */
  lemma {:induction false} RawIsLittleEndian(value: nat, width: nat, i: nat)
    requires i < width
    ensures Raw(value, width)[i] as nat == value / Capacity(i) % 256
    decreases i
  {
    if i > 0 {
      RawIsLittleEndian(value / 256, width - 1, i - 1);
      DivisionInSteps(value, Capacity(i - 1));
    }
  }

  lemma DivisionInSteps(value: nat, n: nat)
    requires n > 0
    ensures value / 256 / n == value / (256 * n)
  {
    var q := value / 256 / n;
    var r, r2 := value % 256, value / 256 % n;
    assert value == 256 * (value / 256) + r && value / 256 == n * q + r2;
    assert value == 256 * n * q + (256 * r2 + r);
    assert 0 <= 256 * r2 + r < 256 * n;
    QuotientIs(value, 256 * n, q, 256 * r2 + r);
  }

  lemma QuotientIs(value: nat, n: nat, q: nat, r: nat)
    requires n > 0 && value == n * q + r && r < n
    ensures value / n == q
  {
    if value / n != q {
      MultipleIsLarge(n, value / n - q);
    }
  }

  lemma MultipleIsLarge(n: nat, d: int)
    requires d != 0
    ensures n * d >= n || n * d + n <= 0
  {
    if d > 0 {
      ProductIsLarge(n, d);
    } else {
      ProductIsLarge(n, 0 - d);
      assert n * d == 0 - n * (0 - d);
    }
  }

  lemma {:induction false} ProductIsLarge(n: nat, k: nat)
    requires k > 0
    ensures n * k >= n
    decreases k
  {
    if k > 1 {
      ProductIsLarge(n, k - 1);
      assert n * k == n * (k - 1) + n;
    }
  }

  // ---------------------------------------------------------------- Fields

  datatype Field = Plain(width: nat, value: nat) | Str(text: Text)

  datatype Shape = PlainShape(width: nat) | StrShape

  predicate Encodable(f: Field) {
    match f
    case Plain(width, value) => value < Capacity(width)
    case Str(text) => |text| < Capacity(UNSIGNED)
  }

  predicate AllEncodable(fields: seq<Field>) {
    forall i :: 0 <= i < |fields| ==> Encodable(fields[i])
  }

  function ShapeOf(f: Field): Shape {
    match f
    case Plain(width, _) => PlainShape(width)
    case Str(_) => StrShape
  }

  function EncodeField(f: Field): Text {
    match f
    case Plain(width, value) => Raw(value, width)
    case Str(text) => Raw(|text|, UNSIGNED) + text
  }

  function Encode(fields: seq<Field>): Text {
    if |fields| == 0 then [] else EncodeField(fields[0]) + Encode(fields[1..])
  }

  function Shapes(fields: seq<Field>): seq<Shape> {
    seq(|fields|, i requires 0 <= i < |fields| => ShapeOf(fields[i]))
  }

  /** The outcome of a read: a value and the cursor behind it, or the underflow exception. */
  datatype Read<T> = Got(value: T, pos: nat) | Underflow

  function ReadPlain(data: Text, pos: nat, width: nat): Read<nat> {
    if |data| < pos + width then Underflow
    else Got(ValueOf(data[pos..pos + width]), pos + width)
  }

  function ReadString(data: Text, pos: nat): Read<Text> {
    match ReadPlain(data, pos, UNSIGNED)
    case Underflow => Underflow
    case Got(size, at) =>
      if |data| < at + size then Underflow else Got(data[at..at + size], at + size)
  }

  function ReadField(data: Text, pos: nat, shape: Shape): Read<Field> {
    match shape
    case PlainShape(width) =>
      (match ReadPlain(data, pos, width)
       case Underflow => Underflow
       case Got(value, at) => Got(Plain(width, value), at))
    case StrShape =>
      (match ReadString(data, pos)
       case Underflow => Underflow
       case Got(text, at) => Got(Str(text), at))
  }

  function ReadFields(data: Text, pos: nat, shapes: seq<Shape>): Read<seq<Field>>
    decreases |shapes|
  {
    if |shapes| == 0 then Got([], pos) else
    match ReadField(data, pos, shapes[0])
    case Underflow => Underflow
    case Got(f, at) =>
      match ReadFields(data, at, shapes[1..])
      case Underflow => Underflow
      case Got(fs, end) => Got([f] + fs, end)
  }

  // ---------------------------------------------------------------- Round trip

  /** `bytes` stand in `data` at `pos`. */
  predicate StandsAt(data: Text, pos: nat, bytes: Text) {
    pos + |bytes| <= |data| && data[pos..pos + |bytes|] == bytes
  }

  lemma StandsInParts(data: Text, pos: nat, one: Text, other: Text)
    requires StandsAt(data, pos, one + other)
    ensures StandsAt(data, pos, one) && StandsAt(data, pos + |one|, other)
  {
    var all := data[pos..pos + |one + other|];
    assert data[pos..pos + |one|] == all[..|one|];
    assert data[pos + |one|..pos + |one| + |other|] == all[|one|..];
  }

  lemma FieldRoundTrip(data: Text, pos: nat, f: Field)
    requires Encodable(f) && StandsAt(data, pos, EncodeField(f))
    ensures ReadField(data, pos, ShapeOf(f)) == Got(f, pos + |EncodeField(f)|)
  {
    match f
    case Plain(width, value) =>
      RawRoundTrip(value, width);
    case Str(text) =>
      StandsInParts(data, pos, Raw(|text|, UNSIGNED), text);
      RawRoundTrip(|text|, UNSIGNED);
  }

  lemma ReadFieldsCons(data: Text, pos: nat, fields: seq<Field>, at: nat, end: nat)
    requires |fields| > 0 && ReadField(data, pos, ShapeOf(fields[0])) == Got(fields[0], at)
    requires ReadFields(data, at, Shapes(fields[1..])) == Got(fields[1..], end)
    ensures ReadFields(data, pos, Shapes(fields)) == Got(fields, end)
  {
    assert Shapes(fields)[1..] == Shapes(fields[1..]);
    assert fields == [fields[0]] + fields[1..];
  }

  lemma EncodeParts(fields: seq<Field>, one: Text, other: Text)
    requires |fields| > 0 && one == EncodeField(fields[0]) && other == Encode(fields[1..])
    ensures Encode(fields) == one + other && |one + other| == |one| + |other|
  {
  }

  lemma EncodeCons(data: Text, pos: nat, fields: seq<Field>)
    requires |fields| > 0 && StandsAt(data, pos, Encode(fields))
    ensures StandsAt(data, pos, EncodeField(fields[0]))
    ensures StandsAt(data, pos + |EncodeField(fields[0])|, Encode(fields[1..]))
    ensures |Encode(fields)| == |EncodeField(fields[0])| + |Encode(fields[1..])|
  {
    var one, other := EncodeField(fields[0]), Encode(fields[1..]);
    EncodeParts(fields, one, other);
    StandParts(data, pos, Encode(fields), one, other, pos + |one|);
  }

  lemma StandParts(data: Text, pos: nat, bytes: Text, one: Text, other: Text, at: nat)
    requires bytes == one + other && StandsAt(data, pos, bytes) && at == pos + |one|
    ensures StandsAt(data, pos, one) && StandsAt(data, at, other) && pos + |bytes| == at + |other|
  {
    StandsInParts(data, pos, one, other);
  }

  lemma {:induction false} StandingIsRead(data: Text, pos: nat, fields: seq<Field>, bytes: Text)
    requires AllEncodable(fields) && bytes == Encode(fields) && StandsAt(data, pos, bytes)
    ensures ReadFields(data, pos, Shapes(fields)) == Got(fields, pos + |bytes|)
    decreases |fields|
  {
    if |fields| == 0 {
      EmptyIsRead(data, pos, fields, bytes);
    } else {
      var one, other := EncodeField(fields[0]), Encode(fields[1..]);
      var at := pos + |one|;
      TailEncodable(fields);
      EncodeParts(fields, one, other);
      StandParts(data, pos, bytes, one, other, at);
      FirstReads(data, pos, fields[0], one, at);
      StandingIsRead(data, at, fields[1..], other);
      ReadFieldsCons(data, pos, fields, at, at + |other|);
    }
  }

  /** Decoding the encoding of any list of fields returns the list, with the cursor behind its size,
      wherever it stands and whatever follows. */
  lemma {:induction false} RoundTrip(data: Text, pos: nat, fields: seq<Field>)
    requires AllEncodable(fields) && StandsAt(data, pos, Encode(fields))
    ensures ReadFields(data, pos, Shapes(fields)) == Got(fields, pos + |Encode(fields)|)
  {
    StandingIsRead(data, pos, fields, Encode(fields));
  }

  lemma EmptyIsRead(data: Text, pos: nat, fields: seq<Field>, bytes: Text)
    requires |fields| == 0 && bytes == Encode(fields)
    ensures ReadFields(data, pos, Shapes(fields)) == Got(fields, pos + |bytes|)
  {
  }

  /** The data ends inside of `bytes`, which stand at `pos`. */
  predicate CutAt(data: Text, pos: nat, bytes: Text) {
    pos <= |data| < pos + |bytes| && data[pos..] == bytes[..|data| - pos]
  }

  /** A value that is cut anywhere underflows. */
  lemma FieldCut(data: Text, pos: nat, f: Field)
    requires Encodable(f) && CutAt(data, pos, EncodeField(f))
    ensures ReadField(data, pos, ShapeOf(f)) == Underflow
  {
    match f
    case Plain(_, _) =>
    case Str(text) =>
      if pos + UNSIGNED <= |data| {
        RawRoundTrip(|text|, UNSIGNED);
        assert data[pos..pos + UNSIGNED] == data[pos..][..UNSIGNED] == Raw(|text|, UNSIGNED);
      }
  }

  /** A cut behind the first value: it stands, and the rest is cut. */
  lemma CutBehind(data: Text, pos: nat, all: Text, one: Text, rest: Text)
    requires CutAt(data, pos, all) && all == one + rest && pos + |one| <= |data|
    ensures StandsAt(data, pos, one) && CutAt(data, pos + |one|, rest)
  {
    assert data[pos..pos + |one|] == data[pos..][..|one|];
    assert data[pos + |one|..] == data[pos..][|one|..];
  }

  lemma CutInside(data: Text, pos: nat, one: Text, rest: Text)
    requires CutAt(data, pos, one + rest) && |data| < pos + |one|
    ensures CutAt(data, pos, one)
  {
  }

  lemma TailEncodable(fields: seq<Field>)
    requires |fields| > 0 && AllEncodable(fields)
    ensures Encodable(fields[0]) && AllEncodable(fields[1..])
  {
  }

  /** The cut is inside of the first part or behind it. */
  lemma CutParts(data: Text, pos: nat, bytes: Text, one: Text, other: Text, at: nat)
    requires bytes == one + other && CutAt(data, pos, bytes) && at == pos + |one|
    ensures if |data| < at then CutAt(data, pos, one) else StandsAt(data, pos, one) && CutAt(data, at, other)
  {
    if |data| < at {
      CutInside(data, pos, one, other);
    } else {
      CutBehind(data, pos, bytes, one, other);
    }
  }

  lemma FirstReads(data: Text, pos: nat, f: Field, one: Text, at: nat)
    requires Encodable(f) && one == EncodeField(f) && StandsAt(data, pos, one) && at == pos + |one|
    ensures ReadField(data, pos, ShapeOf(f)) == Got(f, at)
  {
    FieldRoundTrip(data, pos, f);
  }

  lemma FirstIsCut(data: Text, pos: nat, f: Field, one: Text)
    requires Encodable(f) && one == EncodeField(f) && CutAt(data, pos, one)
    ensures ReadField(data, pos, ShapeOf(f)) == Underflow
  {
    FieldCut(data, pos, f);
  }

  lemma {:induction false} CutUnderflows(data: Text, pos: nat, fields: seq<Field>, bytes: Text)
    requires AllEncodable(fields) && bytes == Encode(fields) && CutAt(data, pos, bytes)
    ensures ReadFields(data, pos, Shapes(fields)) == Underflow
    decreases |fields|
  {
    var one, other := EncodeField(fields[0]), Encode(fields[1..]);
    var at := pos + |one|;
    TailEncodable(fields);
    EncodeParts(fields, one, other);
    CutParts(data, pos, bytes, one, other, at);
    if |data| < at {
      FirstIsCut(data, pos, fields[0], one);
      FirstUnderflows(data, pos, fields);
    } else {
      FirstReads(data, pos, fields[0], one, at);
      CutUnderflows(data, at, fields[1..], other);
      RestUnderflows(data, pos, fields, at);
    }
  }

  /** Decoding any strict prefix of an encoding raises underflow. */
  lemma {:induction false} PrefixUnderflows(data: Text, pos: nat, fields: seq<Field>)
    requires AllEncodable(fields) && CutAt(data, pos, Encode(fields))
    ensures ReadFields(data, pos, Shapes(fields)) == Underflow
  {
    CutUnderflows(data, pos, fields, Encode(fields));
  }

  lemma FirstUnderflows(data: Text, pos: nat, fields: seq<Field>)
    requires |fields| > 0 && ReadField(data, pos, ShapeOf(fields[0])) == Underflow
    ensures ReadFields(data, pos, Shapes(fields)) == Underflow
  {
  }

  lemma RestUnderflows(data: Text, pos: nat, fields: seq<Field>, at: nat)
    requires |fields| > 0 && ReadField(data, pos, ShapeOf(fields[0])) == Got(fields[0], at)
    requires ReadFields(data, at, Shapes(fields[1..])) == Underflow
    ensures ReadFields(data, pos, Shapes(fields)) == Underflow
  {
    assert Shapes(fields)[1..] == Shapes(fields[1..]);
  }

  lemma FieldIsEncoding(data: Text, pos: nat, shape: Shape)
    requires pos <= |data| < Capacity(UNSIGNED) && ReadField(data, pos, shape).Got?
    ensures var Got(f, at) := ReadField(data, pos, shape);
            pos <= at <= |data| && data[pos..at] == EncodeField(f)
  {
    var Got(f, at) := ReadField(data, pos, shape);
    match shape
    case PlainShape(width) =>
      ValueRoundTrip(data[pos..at]);
    case StrShape =>
      ValueRoundTrip(data[pos..pos + UNSIGNED]);
      assert data[pos..at] == data[pos..pos + UNSIGNED] + data[pos + UNSIGNED..at];
  }

  /** Decoding is exact: whatever decodes is the encoding of the fields it decodes to. */
  lemma {:induction false} DecodedIsEncoding(data: Text, pos: nat, shapes: seq<Shape>)
    requires pos <= |data| < Capacity(UNSIGNED) && ReadFields(data, pos, shapes).Got?
    ensures var Got(fields, end) := ReadFields(data, pos, shapes);
            pos <= end <= |data| && data[pos..end] == Encode(fields)
    decreases |shapes|
  {
    if |shapes| > 0 {
      FieldIsEncoding(data, pos, shapes[0]);
      var Got(f, at) := ReadField(data, pos, shapes[0]);
      DecodedIsEncoding(data, at, shapes[1..]);
      var Got(fs, end) := ReadFields(data, at, shapes[1..]);
      EncodeOneMore(f, fs);
      SliceParts(data, pos, at, end);
    }
  }

  lemma SliceParts(data: Text, pos: nat, at: nat, end: nat)
    requires pos <= at <= end <= |data|
    ensures data[pos..end] == data[pos..at] + data[at..end]
  {
  }

  lemma EncodeOneMore(f: Field, fs: seq<Field>)
    ensures Encode([f] + fs) == EncodeField(f) + Encode(fs)
  {
    assert ([f] + fs)[1..] == fs;
  }

  // ---------------------------------------------------------------- The serializer

  lemma {:induction false} EncodeAppend(fields: seq<Field>, f: Field)
    ensures Encode(fields + [f]) == Encode(fields) + EncodeField(f)
    decreases |fields|
  {
    if fields == [] {
      assert [] + [f] == [f] && [f][1..] == [];
    } else {
      assert (fields + [f])[1..] == fields[1..] + [f];
      EncodeAppend(fields[1..], f);
    }
  }

  lemma Assoc(a: Text, b: Text, c: Text)
    ensures a + b + c == a + (b + c)
  {
  }

  class BinarySerializer {
    const buffer: array<Byte>
    var currentPos: nat
    /** Everything that has been written. */
    ghost var fields: seq<Field>

    ghost predicate Valid()
      reads this, buffer
    {
      && buffer.Length == BUFFER_SIZE
      && currentPos <= BUFFER_SIZE
      && buffer[..currentPos] == Encode(fields)
    }

    constructor (bufferToFill: array<Byte>)
      requires bufferToFill.Length == BUFFER_SIZE
      ensures Valid() && buffer == bufferToFill && fields == []
    {
      buffer, currentPos, fields := bufferToFill, 0, [];
    }

    method Copy(bytes: Text)
      requires buffer.Length == BUFFER_SIZE && currentPos + |bytes| <= BUFFER_SIZE
      modifies this`currentPos, buffer
      ensures currentPos == old(currentPos) + |bytes|
      ensures buffer[..currentPos] == old(buffer[..currentPos]) + bytes
    {
      var i := 0;
      while i < |bytes|
        invariant i <= |bytes| && currentPos == old(currentPos)
        invariant buffer[..currentPos + i] == old(buffer[..currentPos]) + bytes[..i]
      {
        buffer[currentPos + i] := bytes[i];
        assert buffer[..currentPos + i + 1] == buffer[..currentPos + i] + [bytes[i]];
        assert bytes[..i + 1] == bytes[..i] + [bytes[i]];
        i := i + 1;
      }
      assert bytes[..i] == bytes;
      currentPos := currentPos + |bytes|;
    }

    /** The caller sees to it that the value fits the buffer. */
    method WritePlain(value: nat, width: nat)
      requires Valid() && currentPos + width <= BUFFER_SIZE
      modifies this, buffer
      ensures Valid() && fields == old(fields) + [Plain(width, value)]
      ensures currentPos == old(currentPos) + width
    {
      EncodeAppend(fields, Plain(width, value));
      Copy(Raw(value, width));
      fields := fields + [Plain(width, value)];
    }

    method WriteString(text: Text)
      requires Valid() && currentPos + UNSIGNED + |text| <= BUFFER_SIZE
      modifies this, buffer
      ensures Valid() && fields == old(fields) + [Str(text)]
      ensures currentPos == old(currentPos) + UNSIGNED + |text|
    {
      EncodeAppend(fields, Str(text));
      ghost var before := buffer[..currentPos];
      Copy(Raw(|text|, UNSIGNED));
      Copy(text);
      Assoc(before, Raw(|text|, UNSIGNED), text);
      fields := fields + [Str(text)];
    }

    function GetCurrentSize(): (size: nat)
      requires Valid()
      reads this, buffer
      ensures size == |Encode(fields)|
    {
      currentPos
    }
  }

  // ---------------------------------------------------------------- The deserializer

  /** One more than the largest size_t. */
  const WRAP: nat := 0x1_0000_0000_0000_0000

  /** The sum of two size_t. */
  function Sum(a: nat, b: nat): nat {
    (a + b) % WRAP
  }

  /** The cursor arithmetic of a read does not wrap around, or wraps to something that is refused anyway. */
  predicate Guarded(maxSize: nat, pos: nat, need: nat) {
    pos + need < WRAP || maxSize < pos + need - WRAP
  }

  /** The guard of a read admits nothing that does not fit if and only if the read is guarded. */
  lemma GuardIsExact(maxSize: nat, pos: nat, need: nat)
    requires maxSize < WRAP && pos < WRAP && need < WRAP
    ensures (Sum(pos, need) <= maxSize ==> pos + need <= maxSize) <==> Guarded(maxSize, pos, need)
  {
    if pos + need >= WRAP {
      assert Sum(pos, need) == pos + need - WRAP;
    }
  }

  /** Both guards of a string: that of its size, and that of its text if the size can be read. */
  predicate StringGuarded(data: Text, pos: nat) {
    && Guarded(|data|, pos, UNSIGNED)
    && (pos + UNSIGNED <= |data| ==> Guarded(|data|, pos + UNSIGNED, ValueOf(data[pos..pos + UNSIGNED])))
  }

  lemma LargestUnsigned()
    ensures Capacity(UNSIGNED) == 0x1_0000_0000
  {
    assert Capacity(4) == 256 * Capacity(3) && Capacity(3) == 256 * Capacity(2) && Capacity(2) == 256 * Capacity(1);
    assert Capacity(1) == 256 * Capacity(0);
  }

  /** From a cursor far enough from the end of size_t every read is guarded. */
  lemma FarFromTheEnd(data: Text, pos: nat)
    requires pos + SIZE_T < WRAP && |data| + UNSIGNED + Capacity(UNSIGNED) < WRAP
    ensures Guarded(|data|, pos, SIZE_T) && Guarded(|data|, pos, UNSIGNED) && StringGuarded(data, pos)
  {
    if pos + UNSIGNED <= |data| {
      ValueRoundTrip(data[pos..pos + UNSIGNED]);
    }
  }

  /** So it is inside a packet. */
  lemma CursorHasRoom(data: Text, pos: nat)
    requires |data| <= BUFFER_SIZE && pos <= BUFFER_SIZE
    ensures Guarded(|data|, pos, SIZE_T) && Guarded(|data|, pos, UNSIGNED) && StringGuarded(data, pos)
  {
    LargestUnsigned();
    FarFromTheEnd(data, pos);
  }

  // ---------------------------------------------------------------- Chains of reads and skips

  datatype Call = ReadCall(shape: Shape) | SkipCall(count: nat)

  /** The outcome of an access in the program: `Outside` is an access to a byte at or past the size. */
  datatype Access<T> = Fetched(value: T, pos: nat) | Refused | Outside

  /** A guarded access of the program, with the arithmetic of its cursor. */
  function Fetch(data: Text, pos: nat, need: nat): Access<Text> {
    if |data| < Sum(pos, need) then Refused
    else if |data| < pos + need then Outside
    else Fetched(data[pos..pos + need], pos + need)
  }

  function FetchField(data: Text, pos: nat, shape: Shape): Access<Field> {
    match shape
    case PlainShape(width) =>
      (match Fetch(data, pos, width)
       case Refused => Refused
       case Outside => Outside
       case Fetched(raw, at) => Fetched(Plain(width, ValueOf(raw)), at))
    case StrShape =>
      (match Fetch(data, pos, UNSIGNED)
       case Refused => Refused
       case Outside => Outside
       case Fetched(raw, at) =>
         match Fetch(data, at, ValueOf(raw))
         case Refused => Refused
         case Outside => Outside
         case Fetched(text, end) => Fetched(Str(text), end))
  }

  function FetchCalls(data: Text, pos: nat, calls: seq<Call>): Access<seq<Field>>
    decreases |calls|
  {
    if |calls| == 0 then Fetched([], pos) else
    match calls[0]
    case SkipCall(count) => FetchCalls(data, Sum(pos, count), calls[1..])
    case ReadCall(shape) =>
      match FetchField(data, pos, shape)
      case Refused => Refused
      case Outside => Outside
      case Fetched(f, at) =>
        match FetchCalls(data, at, calls[1..])
        case Refused => Refused
        case Outside => Outside
        case Fetched(fs, end) => Fetched([f] + fs, end)
  }

  /** What the chain means: every read underflows exactly when its value does not fit. */
  function ReadCalls(data: Text, pos: nat, calls: seq<Call>): Read<seq<Field>>
    decreases |calls|
  {
    if |calls| == 0 then Got([], pos) else
    match calls[0]
    case SkipCall(count) => ReadCalls(data, Sum(pos, count), calls[1..])
    case ReadCall(shape) =>
      match ReadField(data, pos, shape)
      case Underflow => Underflow
      case Got(f, at) =>
        match ReadCalls(data, at, calls[1..])
        case Underflow => Underflow
        case Got(fs, end) => Got([f] + fs, end)
  }

  predicate FieldGuarded(data: Text, pos: nat, shape: Shape) {
    match shape
    case PlainShape(width) => Guarded(|data|, pos, width)
    case StrShape => StringGuarded(data, pos)
  }

  /** Every read that the chain comes to is guarded where it comes to it. */
  predicate CallsGuarded(data: Text, pos: nat, calls: seq<Call>)
    decreases |calls|
  {
    |calls| == 0 ||
    match calls[0]
    case SkipCall(count) => CallsGuarded(data, Sum(pos, count), calls[1..])
    case ReadCall(shape) =>
      && FieldGuarded(data, pos, shape)
      && match ReadField(data, pos, shape)
         case Underflow => true
         case Got(_, at) => CallsGuarded(data, at, calls[1..])
  }

  /** The widths of plain values are those of types. */
  predicate SmallWidths(calls: seq<Call>) {
    forall i :: 0 <= i < |calls| && calls[i].ReadCall? && calls[i].shape.PlainShape? ==> calls[i].shape.width <= SIZE_T
  }

  function AsAccess<T>(r: Read<T>): Access<T> {
    match r
    case Underflow => Refused
    case Got(value, pos) => Fetched(value, pos)
  }

  lemma {:induction false} TailWidths(calls: seq<Call>)
    requires |calls| > 0 && SmallWidths(calls)
    ensures SmallWidths(calls[1..])
    ensures calls[0].ReadCall? && calls[0].shape.PlainShape? ==> calls[0].shape.width <= SIZE_T
  {
    assert forall i | 0 <= i < |calls[1..]| :: calls[1..][i] == calls[i + 1];
  }

  lemma FetchExactly(data: Text, pos: nat, need: nat)
    requires |data| < WRAP && pos < WRAP && need < WRAP
    ensures Fetch(data, pos, need).Outside? <==> !Guarded(|data|, pos, need)
    ensures Guarded(|data|, pos, need) ==>
              Fetch(data, pos, need)
                == if |data| < pos + need then Refused else Fetched(data[pos..pos + need], pos + need)
  {
    GuardIsExact(|data|, pos, need);
  }

  /** One read goes outside exactly when it is not guarded, and otherwise is the read of the specification. */
  lemma FetchFieldExactly(data: Text, pos: nat, shape: Shape)
    requires |data| < WRAP && pos < WRAP && (shape.PlainShape? ==> shape.width <= SIZE_T)
    ensures FetchField(data, pos, shape).Outside? <==> !FieldGuarded(data, pos, shape)
    ensures FieldGuarded(data, pos, shape) ==> FetchField(data, pos, shape) == AsAccess(ReadField(data, pos, shape))
    ensures FetchField(data, pos, shape).Fetched? ==> FetchField(data, pos, shape).pos <= |data|
  {
    match shape
    case PlainShape(width) =>
      FetchExactly(data, pos, width);
    case StrShape =>
      FetchExactly(data, pos, UNSIGNED);
      if pos + UNSIGNED <= |data| {
        ValueRoundTrip(data[pos..pos + UNSIGNED]);
        LargestUnsigned();
        FetchExactly(data, pos + UNSIGNED, ValueOf(data[pos..pos + UNSIGNED]));
      }
  }

  /** Any chain of reads and skips touches no byte at or past the size if and only if every read in it is guarded; and
      then it reads what it means, and throws exactly when that underflows. */
  lemma {:induction false} ChainStaysInsideExactly(data: Text, pos: nat, calls: seq<Call>)
    requires |data| < WRAP && pos < WRAP && SmallWidths(calls)
    ensures FetchCalls(data, pos, calls).Outside? <==> !CallsGuarded(data, pos, calls)
    ensures CallsGuarded(data, pos, calls) ==> FetchCalls(data, pos, calls) == AsAccess(ReadCalls(data, pos, calls))
    decreases |calls|
  {
    if |calls| > 0 {
      TailWidths(calls);
      if calls[0].SkipCall? {
        ChainStaysInsideExactly(data, Sum(pos, calls[0].count), calls[1..]);
      } else {
        var fetched := FetchField(data, pos, calls[0].shape);
        FetchFieldExactly(data, pos, calls[0].shape);
        if fetched.Fetched? {
          ChainStaysInsideExactly(data, fetched.pos, calls[1..]);
        }
      }
    }
  }

  /** How far the skips of a chain move the cursor. */
  function Skipped(calls: seq<Call>): nat {
    if |calls| == 0 then 0 else (if calls[0].SkipCall? then calls[0].count else 0) + Skipped(calls[1..])
  }

  lemma NoWrap(a: nat, b: nat)
    requires a + b < WRAP
    ensures Sum(a, b) == a + b
  {
  }

  lemma FieldFarFromTheEnd(data: Text, pos: nat, shape: Shape)
    requires pos + SIZE_T < WRAP && |data| + UNSIGNED + Capacity(UNSIGNED) < WRAP
    requires shape.PlainShape? ==> shape.width <= SIZE_T
    ensures FieldGuarded(data, pos, shape)
    ensures ReadField(data, pos, shape).Got? ==> ReadField(data, pos, shape).pos <= |data|
  {
    FarFromTheEnd(data, pos);
  }

  lemma {:induction false} ShortSkipsAreGuarded(data: Text, pos: nat, calls: seq<Call>, reach: nat)
    requires |data| <= reach && pos <= reach && SmallWidths(calls)
    requires reach + Skipped(calls) + SIZE_T + Capacity(UNSIGNED) < WRAP
    ensures CallsGuarded(data, pos, calls)
    decreases |calls|
  {
    if |calls| > 0 {
      TailWidths(calls);
      if calls[0].SkipCall? {
        NoWrap(pos, calls[0].count);
        ShortSkipsAreGuarded(data, pos + calls[0].count, calls[1..], reach + calls[0].count);
      } else {
        var read := ReadField(data, pos, calls[0].shape);
        FieldFarFromTheEnd(data, pos, calls[0].shape);
        if read.Got? {
          ShortSkipsAreGuarded(data, read.pos, calls[1..], reach);
        }
      }
    }
  }

  /** Chains whose skips stay clear of the end of size_t, by no more than a caller can add up beforehand, never
      touch a byte at or past the size. */
  lemma {:induction false} ShortSkipsStayInside(data: Text, calls: seq<Call>)
    requires SmallWidths(calls) && |data| + Skipped(calls) + SIZE_T + Capacity(UNSIGNED) < WRAP
    ensures !FetchCalls(data, 0, calls).Outside?
  {
    ShortSkipsAreGuarded(data, 0, calls, |data|);
    ChainStaysInsideExactly(data, 0, calls);
  }

  /** A skip to the end of size_t makes the guard admit a read far outside: on 8 bytes, the skip of all ones and
      then the read of an unsigned. */
  lemma LongSkipGoesOutside(data: Text)
    requires |data| == 8
    ensures FetchCalls(data, 0, [SkipCall(WRAP - 1), ReadCall(PlainShape(UNSIGNED))]).Outside?
  {
    var calls := [SkipCall(WRAP - 1), ReadCall(PlainShape(UNSIGNED))];
    assert calls[1..] == [ReadCall(PlainShape(UNSIGNED))];
    assert FetchCalls(data, 0, calls) == FetchCalls(data, WRAP - 1, calls[1..]);
    assert Fetch(data, WRAP - 1, UNSIGNED) == Outside;
  }

  class BinaryDeserializer {
    const data: array<Byte>
    const maxSize: nat
    var currentPos: nat

    ghost predicate Valid()
      reads this, data
    {
      maxSize <= data.Length < WRAP && currentPos < WRAP
    }

    /** All that a read may look at. */
    ghost function Input(): Text
      reads this, data
      requires Valid()
    {
      data[..maxSize]
    }

    constructor (data: array<Byte>, size: nat)
      requires size <= data.Length < WRAP
      ensures Valid() && this.data == data && maxSize == size && currentPos == 0
    {
      this.data, maxSize, currentPos := data, size, 0;
    }

    lemma SliceOfInput(size: nat, pos: nat, need: nat)
      requires pos + need <= size <= data.Length
      ensures data[..size][pos..pos + need] == data[pos..pos + need]
    {
    }

    /** `ok` is false when the underflow exception is thrown.  The bytes at and past `maxSize` do not matter. */
    method Plain(width: nat) returns (ok: bool, value: nat)
      requires Valid() && width < WRAP && Guarded(maxSize, currentPos, width)
      modifies this`currentPos
      ensures Valid()
      ensures match ReadPlain(Input(), old(currentPos), width)
              case Underflow => !ok && currentPos == old(currentPos)
              case Got(v, at) => ok && value == v && currentPos == at
    {
      GuardIsExact(maxSize, currentPos, width);
      if maxSize < Sum(currentPos, width) {
        return false, 0;
      }
      SliceOfInput(maxSize, currentPos, width);
      ok, value := true, ValueOf(data[currentPos..currentPos + width]);
      currentPos := currentPos + width;
    }

    /** A string that is cut in its text leaves the cursor behind its size. */
    method String() returns (ok: bool, text: Text)
      requires Valid() && StringGuarded(Input(), currentPos)
      modifies this`currentPos
      ensures Valid()
      ensures match ReadString(Input(), old(currentPos))
              case Underflow =>
                && !ok
                && currentPos == old(currentPos) + if maxSize < old(currentPos) + UNSIGNED then 0 else UNSIGNED
              case Got(t, at) => ok && text == t && currentPos == at
    {
      text := [];
      GuardIsExact(maxSize, currentPos, UNSIGNED);
      if maxSize < Sum(currentPos, UNSIGNED) {
        return false, [];
      }
      var size: nat;
      ok, size := Plain(UNSIGNED);
      ValueRoundTrip(Input()[old(currentPos)..old(currentPos) + UNSIGNED]);
      LargestUnsigned();
      GuardIsExact(maxSize, currentPos, size);
      if maxSize < Sum(currentPos, size) {
        return false, [];
      }
      SliceOfInput(maxSize, currentPos, size);
      text := data[currentPos..currentPos + size];
      currentPos := currentPos + size;
    }

    /** A skip is not checked; the next read is. */
    method Skip(toSkip: nat)
      requires Valid() && toSkip < WRAP
      modifies this`currentPos
      ensures Valid() && currentPos == Sum(old(currentPos), toSkip)
    {
      currentPos := Sum(currentPos, toSkip);
    }

    method ReadOne(shape: Shape) returns (ok: bool, field: Field)
      requires Valid() && FieldGuarded(Input(), currentPos, shape) && (shape.PlainShape? ==> shape.width <= SIZE_T)
      modifies this`currentPos
      ensures Valid()
      ensures match ReadField(Input(), old(currentPos), shape)
              case Underflow => !ok
              case Got(f, at) => ok && field == f && currentPos == at
    {
      match shape {
        case PlainShape(width) =>
          var value: nat;
          ok, value := Plain(width);
          field := Field.Plain(width, value);
        case StrShape =>
          var text: Text;
          ok, text := String();
          field := Str(text);
      }
    }

    /** A chain of reads and skips, one after the other, until one of them throws. */
    method Chain(calls: seq<Call>) returns (ok: bool, fields: seq<Field>)
      requires Valid() && CallsGuarded(Input(), currentPos, calls) && SmallWidths(calls)
      requires forall i :: 0 <= i < |calls| && calls[i].SkipCall? ==> calls[i].count < WRAP
      modifies this`currentPos
      ensures Valid()
      ensures match ReadCalls(Input(), old(currentPos), calls)
              case Underflow => !ok
              case Got(fs, at) => ok && fields == fs && currentPos == at
      decreases |calls|
    {
      if |calls| == 0 {
        return true, [];
      }
      TailWidths(calls);
      if calls[0].SkipCall? {
        Skip(calls[0].count);
        ok, fields := Chain(calls[1..]);
      } else {
        var field: Field;
        ok, field := ReadOne(calls[0].shape);
        if !ok {
          return false, [];
        }
        ok, fields := Chain(calls[1..]);
        fields := [field] + fields;
      }
    }
  }
}
