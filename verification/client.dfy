/** The command line client: the other half of the protocol. */
module Client {
  import opened Basics
  import opened Protocol
  import opened Codec
  import opened Framing
  import opened Wire

  predicate Talking(phase: Phase) {
    phase == PreauthPhase || phase == LobbyPhase || phase == IngamePhase
  }

  /** Whatever arrives, the client reads it as a packet of its own phase, so it is never confused by
      what it believes it has read. */
  lemma ReadsOnlyItsPhase(phase: Phase, data: Text)
    requires Talking(phase)
    ensures match ClientRead(phase, data)
            case Shows(p) => Advance(phase, p) != Confused
            case _ => true
  {
    match ReadPlain(data, 0, OPCODE)
    case Underflow =>
    case Got(opcode, pos) =>
      if phase != LobbyPhase || opcode != 0 {
        match ReadFields(data, pos, ShapesFor(phase, opcode))
        case Underflow =>
        case Got(fs, _) =>
          ReadShapes(data, pos, ShapesFor(phase, opcode));
          BuildFitsPhase(phase, opcode, fs);
      }
  }

  lemma BuildFitsPhase(phase: Phase, opcode: nat, fs: seq<Field>)
    requires Talking(phase) && Shapes(fs) == ShapesFor(phase, opcode)
    ensures match Build(phase, opcode, fs)
            case Some(p) => Advance(phase, p) != Confused
            case None => true
  {
  }

  // ---------------------------------------------------------------- A whole conversation

  function PhaseAfterRead(phase: Phase, reading: Reading): Phase {
    match reading
    case Shows(p) => Advance(phase, p)
    case Reports => phase
    case Dies => Exited
  }

  /** What the client reads, one packet after the other, each in the phase that the ones before have led to,
      until it exits. */
  function Conversation(phase: Phase, packets: seq<Text>): seq<Reading>
    decreases |packets|
  {
    if |packets| == 0 || phase == Exited then [] else
    var reading := ClientRead(phase, packets[0]);
    [reading] + Conversation(PhaseAfterRead(phase, reading), packets[1..])
  }

  /** The server's side of it: the stream of everything that was sent. */
  function SentBytes(sent: seq<Packet>): seq<Text> {
    seq(|sent|, i requires 0 <= i < |sent| => Bytes(sent[i]))
  }

  function Understood(sent: seq<Packet>): seq<Reading> {
    seq(|sent|, i requires 0 <= i < |sent| => Shows(sent[i]))
  }

  function PhaseFrom(phase: Phase, sent: seq<Packet>): Phase
    decreases |sent|
  {
    if |sent| == 0 then phase else PhaseFrom(Advance(phase, sent[0]), sent[1..])
  }

  lemma {:induction false} ConfusionStays(sent: seq<Packet>)
    ensures PhaseFrom(Confused, sent) == Confused
    decreases |sent|
  {
    if |sent| > 0 {
      ConfusionStays(sent[1..]);
    }
  }

  lemma {:induction false} PhaseFromAppend(phase: Phase, sent: seq<Packet>, p: Packet)
    ensures PhaseFrom(phase, sent + [p]) == Advance(PhaseFrom(phase, sent), p)
    decreases |sent|
  {
    if |sent| == 0 {
      assert sent + [p] == [p] && [p][1..] == [];
    } else {
      assert (sent + [p])[1..] == sent[1..] + [p];
      PhaseFromAppend(Advance(phase, sent[0]), sent[1..], p);
    }
  }

  lemma {:induction false} PhaseFromStart(sent: seq<Packet>)
    ensures PhaseFrom(PreauthPhase, sent) == PhaseAfter(sent)
    decreases |sent|
  {
    if |sent| > 0 {
      var init, p := sent[..|sent| - 1], sent[|sent| - 1];
      PhaseFromStart(init);
      PhaseFromAppend(PreauthPhase, init, p);
      assert sent == init + [p];
    }
  }

  lemma ConversationCons(phase: Phase, sent: seq<Packet>)
    requires |sent| > 0 && phase != Exited && ClientRead(phase, Bytes(sent[0])) == Shows(sent[0])
    requires Conversation(Advance(phase, sent[0]), SentBytes(sent[1..])) == Understood(sent[1..])
    ensures Conversation(phase, SentBytes(sent)) == Understood(sent)
  {
    SentParts(sent);
    var ps, p := SentBytes(sent), sent[0];
    assert Conversation(phase, ps) == [Shows(p)] + Conversation(Advance(phase, p), ps[1..]);
  }

  lemma SentParts(sent: seq<Packet>)
    requires |sent| > 0
    ensures SentBytes(sent)[0] == Bytes(sent[0]) && SentBytes(sent)[1..] == SentBytes(sent[1..])
    ensures Understood(sent) == [Shows(sent[0])] + Understood(sent[1..])
  {
  }

  lemma {:induction false} ConversationUnderstood(phase: Phase, sent: seq<Packet>)
    requires PhaseFrom(phase, sent) != Confused
    requires forall i :: 0 <= i < |sent| ==> Sendable(sent[i])
    ensures Conversation(phase, SentBytes(sent)) == Understood(sent)
    decreases |sent|
  {
    if |sent| > 0 {
      if Advance(phase, sent[0]) == Confused {
        ConfusionStays(sent[1..]);
      }
      PacketRoundTrip(phase, sent[0]);
      ConversationUnderstood(Advance(phase, sent[0]), sent[1..]);
      ConversationCons(phase, sent);
    }
  }

  /** End to end: if the packets sent never leave the protocol's phases and fit the buffer, the client takes
      exactly these packets off the stream and reads each of them as what was sent. */
  lemma StreamUnderstood(sent: seq<Packet>)
    requires PhaseAfter(sent) != Confused
    requires forall i :: 0 <= i < |sent| ==> Sendable(sent[i])
    ensures Receive(Stream(SentBytes(sent))) == Reception(SentBytes(sent), [], false)
    ensures Conversation(PreauthPhase, Receive(Stream(SentBytes(sent))).packets) == Understood(sent)
  {
    var ps := SentBytes(sent);
    assert AllFit(ps);
    forall i | 0 <= i < |ps|
      ensures |ps[i]| < Capacity(UNSIGNED)
    {
      BufferFitsLength(|ps[i]|);
    }
    DeliversExactlyWhatFits(ps);
    PhaseFromStart(sent);
    ConversationUnderstood(PreauthPhase, sent);
  }

  // ---------------------------------------------------------------- The program

  /** The list read so far, with what a later read makes of the rest. */
  function ListAfter<T>(sofar: seq<T>, later: Read<seq<T>>): Read<seq<T>> {
    match later
    case Underflow => Underflow
    case Got(more, end) => Got(sofar + more, end)
  }

  lemma ListStep<T>(sofar: seq<T>, x: T, later: Read<seq<T>>)
    ensures ListAfter(sofar, ListAfter([x], later)) == ListAfter(sofar + [x], later)
  {
    if later.Got? {
      assert sofar + ([x] + later.value) == sofar + [x] + later.value;
    }
  }

  lemma ListStart<T>(later: Read<seq<T>>)
    ensures ListAfter([], later) == later
  {
    if later.Got? {
      assert [] + later.value == later.value;
    }
  }

  lemma ListEnd<T>(sofar: seq<T>, at: nat)
    ensures ListAfter(sofar, Got([], at)) == Got(sofar, at)
  {
    assert sofar + [] == sofar;
  }

  /** A cursor that has not passed the end of the packet. */
  ghost predicate InPacket(bd: BinaryDeserializer)
    reads bd, bd.data
  {
    bd.Valid() && bd.currentPos <= bd.maxSize <= BUFFER_SIZE
  }

  class CommandlineClient {
    var cs: Phase

    constructor ()
      ensures cs == PreauthPhase
    {
      cs := PreauthPhase;
    }

    /** The loop over a counted list; `ok` is false when the underflow exception leaves it. */
    method ReadList(bd: BinaryDeserializer, count: nat) returns (ok: bool, chars: seq<Entity>)
      requires InPacket(bd)
      modifies bd
      ensures bd.Valid()
      ensures match ReadCharacters(bd.Input(), old(bd.currentPos), count)
              case Underflow => !ok
              case Got(read, end) => ok && chars == read && bd.currentPos == end
    {
      chars := [];
      var left: nat := count;
      ghost var input := bd.Input();
      ghost var whole := ReadCharacters(input, bd.currentPos, count);
      ListStart(whole);
      while left > 0
        invariant InPacket(bd) && bd.Input() == input
        invariant whole == ListAfter(chars, ReadCharacters(input, bd.currentPos, left))
      {
        ghost var pos := bd.currentPos;
        var uid: nat, nick: Text;
        CursorHasRoom(bd.Input(), bd.currentPos);
        ok, uid := bd.Plain(UNSIGNED);
        if !ok {
          return false, [];
        }
        CursorHasRoom(bd.Input(), bd.currentPos);
        ok, nick := bd.String();
        if !ok {
          return false, [];
        }
        assert ReadCharacters(input, pos, left)
          == ListAfter([Entity(uid, nick)], ReadCharacters(input, bd.currentPos, left - 1));
        ListStep(chars, Entity(uid, nick), ReadCharacters(input, bd.currentPos, left - 1));
        chars := chars + [Entity(uid, nick)];
        left := left - 1;
      }
      ListEnd(chars, bd.currentPos);
      ok := true;
    }

    /** A chain of reads into variables of these shapes. */
    method ReadChain(bd: BinaryDeserializer, shapes: seq<Shape>) returns (ok: bool, fields: seq<Field>)
      requires InPacket(bd) && forall i :: 0 <= i < |shapes| ==>
                 shapes[i] == StrShape || shapes[i] == PlainShape(UNSIGNED)
      modifies bd
      ensures bd.Valid()
      ensures match ReadFields(bd.Input(), old(bd.currentPos), shapes)
              case Underflow => !ok
              case Got(read, end) => ok && fields == read && bd.currentPos == end
    {
      fields := [];
      var i := 0;
      ghost var input := bd.Input();
      ghost var whole := ReadFields(input, bd.currentPos, shapes);
      ListStart(whole);
      assert shapes[0..] == shapes;
      while i < |shapes|
        invariant i <= |shapes| && InPacket(bd) && bd.Input() == input
        invariant whole == ListAfter(fields, ReadFields(input, bd.currentPos, shapes[i..]))
      {
        ghost var pos := bd.currentPos;
        var f: Field;
        ok, f := ReadOne(bd, shapes[i]);
        assert shapes[i..][0] == shapes[i] && shapes[i..][1..] == shapes[i + 1..];
        if !ok {
          return false, [];
        }
        ListStep(fields, f, ReadFields(input, bd.currentPos, shapes[i + 1..]));
        fields := fields + [f];
        i := i + 1;
      }
      ListEnd(fields, bd.currentPos);
      ok := true;
    }

    method ReadOne(bd: BinaryDeserializer, shape: Shape) returns (ok: bool, f: Field)
      requires InPacket(bd) && (shape == StrShape || shape == PlainShape(UNSIGNED))
      modifies bd
      ensures InPacket(bd)
      ensures match ReadField(bd.Input(), old(bd.currentPos), shape)
              case Underflow => !ok
              case Got(read, at) => ok && f == read && bd.currentPos == at
    {
      f := Str([]);
      CursorHasRoom(bd.Input(), bd.currentPos);
      if shape == StrShape {
        var text: Text;
        ok, text := bd.String();
        f := Str(text);
      } else {
        var value: nat;
        ok, value := bd.Plain(UNSIGNED);
        f := Plain(UNSIGNED, value);
      }
    }

    /** Reads a packet by the current phase and moves on; an underflow exception ends the program. */
    method OnRecv(data: array<Byte>, size: nat) returns (reading: Reading)
      requires data.Length == BUFFER_SIZE && size <= BUFFER_SIZE
      modifies this
      ensures reading == ClientRead(old(cs), data[..size])
      ensures cs == PhaseAfterRead(old(cs), reading)
    {
      reading := Read(data, size);
      match reading {
        case Shows(p) => cs := Advance(cs, p);
        case Reports =>
        case Dies => cs := Exited;
      }
    }

    method Read(data: array<Byte>, size: nat) returns (reading: Reading)
      requires data.Length == BUFFER_SIZE && size <= BUFFER_SIZE
      ensures reading == ClientRead(cs, data[..size])
    {
      var bd := new BinaryDeserializer(data, size);
      var ok, opcode := bd.Plain(OPCODE);
      if !ok {
        return Dies;
      }
      if cs == LobbyPhase && opcode == 0 {
        CursorHasRoom(bd.Input(), bd.currentPos);
        var count: nat, chars: seq<Entity>;
        ok, count := bd.Plain(SIZE_T);
        if !ok {
          return Dies;
        }
        ok, chars := ReadList(bd, count);
        return if ok then Shows(CharacterList(chars)) else Dies;
      }
      var fields: seq<Field>;
      ok, fields := ReadChain(bd, ShapesFor(cs, opcode));
      if !ok {
        return Dies;
      }
      ReadShapes(bd.Input(), OPCODE, ShapesFor(cs, opcode));
      var packet := Build(cs, opcode, fields);
      return if packet.Some? then Shows(packet.value) else Reports;
    }
  }
}
