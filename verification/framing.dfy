/** The socket: packets on a byte stream, each behind its length in four bytes. */
module Framing {
  import opened Basics
  import opened Codec

  function Frame(p: Text): Text {
    Raw(|p|, UNSIGNED) + p
  }

  function Stream(ps: seq<Text>): Text {
    if |ps| == 0 then [] else Frame(ps[0]) + Stream(ps[1..])
  }

  /** What the receiving side makes of the bytes that have arrived: the packets it hands on, the bytes that
      are still waiting for the rest of a frame, and whether it gave up at a length that exceeds its buffer. */
  datatype Reception = Reception(packets: seq<Text>, rest: Text, gaveUp: bool)

  function Receive(stream: Text): Reception
    decreases |stream|
  {
    if |stream| < UNSIGNED then Reception([], stream, false)
    else
      var len := ValueOf(stream[..UNSIGNED]);
      if len > BUFFER_SIZE then Reception([], stream, true)
      else if |stream| < UNSIGNED + len then Reception([], stream, false)
      else After([stream[UNSIGNED..UNSIGNED + len]], Receive(stream[UNSIGNED + len..]))
  }

  /** What was received later, behind the packets `ps`. */
  function After(ps: seq<Text>, later: Reception): Reception {
    later.(packets := ps + later.packets)
  }

  lemma AfterAfter(p: Text, ps: seq<Text>, later: Reception)
    ensures After([p], After(ps, later)) == After([p] + ps, later)
  {
    assert [p] + (ps + later.packets) == [p] + ps + later.packets;
  }

  predicate AllFit(ps: seq<Text>) {
    forall i :: 0 <= i < |ps| ==> |ps[i]| <= BUFFER_SIZE
  }

  /** The parts of a stream that begins with a frame. */
  lemma FrameParts(p: Text, more: Text)
    requires |p| < Capacity(UNSIGNED)
    ensures var stream := Frame(p) + more;
            && ValueOf(stream[..UNSIGNED]) == |p|
            && stream[UNSIGNED..UNSIGNED + |p|] == p
            && stream[UNSIGNED + |p|..] == more
  {
    var stream := Frame(p) + more;
    assert stream[..UNSIGNED] == Raw(|p|, UNSIGNED);
    RawRoundTrip(|p|, UNSIGNED);
  }

  lemma BufferFitsLength(n: nat)
    requires n <= BUFFER_SIZE
    ensures n < Capacity(UNSIGNED)
  {
    assert Capacity(1) == 256 * Capacity(0);
    assert Capacity(4) == 256 * Capacity(3) && Capacity(3) == 256 * Capacity(2) && Capacity(2) == 256 * Capacity(1);
  }

  /** A frame in front is taken off, whatever follows. */
  lemma ReceiveFrame(p: Text, more: Text)
    requires |p| <= BUFFER_SIZE
    ensures Receive(Frame(p) + more) == After([p], Receive(more))
  {
    BufferFitsLength(|p|);
    FrameParts(p, more);
  }

  /** Packets that fit the buffer come out of the stream as they went in, in order, and nothing is left over. */
  lemma {:induction false} FramingRoundTrip(ps: seq<Text>, more: Text)
    requires AllFit(ps)
    ensures Receive(Stream(ps) + more) == After(ps, Receive(more))
    decreases |ps|
  {
    if |ps| == 0 {
      assert Stream(ps) + more == more && ps + Receive(more).packets == Receive(more).packets;
    } else {
      FramingRoundTrip(ps[1..], more);
      ReceiveFrame(ps[0], Stream(ps[1..]) + more);
      StreamHead(ps, more);
      AfterAfter(ps[0], ps[1..], Receive(more));
      assert [ps[0]] + ps[1..] == ps;
    }
  }

  lemma StreamHead(ps: seq<Text>, more: Text)
    requires |ps| > 0
    ensures Stream(ps) + more == Frame(ps[0]) + (Stream(ps[1..]) + more)
  {
  }

  /** The buffer is what limits the packets: the stream delivers them all if and only if each of them fits. */
  lemma {:induction false} DeliversExactlyWhatFits(ps: seq<Text>)
    requires forall i :: 0 <= i < |ps| ==> |ps[i]| < Capacity(UNSIGNED)
    ensures Receive(Stream(ps)) == Reception(ps, [], false) <==> AllFit(ps)
    decreases |ps|
  {
    if |ps| > 0 {
      if |ps[0]| <= BUFFER_SIZE {
        DeliversExactlyWhatFits(ps[1..]);
        ReceiveFrame(ps[0], Stream(ps[1..]));
        var next := Receive(Stream(ps[1..]));
        assert Receive(Stream(ps)).packets[1..] == next.packets;
        assert ps == [ps[0]] + ps[1..];
        assert AllFit(ps) <==> AllFit(ps[1..]) by {
          assert AllFit(ps[1..]) ==> forall i :: 0 < i < |ps| ==> |ps[i]| == |ps[1..][i - 1]| <= BUFFER_SIZE;
        }
      } else {
        FrameParts(ps[0], Stream(ps[1..]));
      }
    }
  }

  /** The network may cut the stream anywhere: what has been received so far stays received, and the rest is
      read together with what comes later. */
  lemma {:induction false} CutsDoNotMatter(early: Text, late: Text)
    requires !Receive(early).gaveUp
    ensures var now := Receive(early);
            Receive(early + late) == After(now.packets, Receive(now.rest + late))
    decreases |early|
  {
    var now := Receive(early);
    if |now.packets| == 0 {
      assert now.rest == early;
      assert [] + Receive(early + late).packets == Receive(early + late).packets;
    } else {
      var len := ValueOf(early[..UNSIGNED]);
      var tail := early[UNSIGNED + len..];
      CutsDoNotMatter(tail, late);
      FirstStays(early, late, len);
      assert Receive(tail).packets == now.packets[1..];
      AfterAfter(now.packets[0], now.packets[1..], Receive(now.rest + late));
      assert [now.packets[0]] + now.packets[1..] == now.packets;
    }
  }

  lemma FirstStays(early: Text, late: Text, len: nat)
    requires UNSIGNED + len <= |early|
    ensures var all := early + late;
            && all[..UNSIGNED] == early[..UNSIGNED] && all[UNSIGNED..UNSIGNED + len] == early[UNSIGNED..UNSIGNED + len]
            && all[UNSIGNED + len..] == early[UNSIGNED + len..] + late
  {
  }

  /** Any beginning of the stream delivers a beginning of the packets, and never an error. */
  lemma AnyCutDeliversAPrefix(ps: seq<Text>, cut: nat)
    requires AllFit(ps) && cut <= |Stream(ps)|
    ensures Receive(Stream(ps)[..cut]).packets <= ps && !Receive(Stream(ps)[..cut]).gaveUp
  {
    var early, late := Stream(ps)[..cut], Stream(ps)[cut..];
    assert early + late == Stream(ps) && Stream(ps) + [] == Stream(ps) && ps + [] == ps;
    FramingRoundTrip(ps, []);
    if Receive(early).gaveUp {
      GivingUpIsFinal(early, late);
    } else {
      CutsDoNotMatter(early, late);
    }
  }

  lemma {:induction false} GivingUpIsFinal(early: Text, late: Text)
    requires Receive(early).gaveUp
    ensures Receive(early + late).gaveUp
    decreases |early|
  {
    var len := ValueOf(early[..UNSIGNED]);
    var all := early + late;
    assert all[..UNSIGNED] == early[..UNSIGNED];
    if len <= BUFFER_SIZE {
      GivingUpIsFinal(early[UNSIGNED + len..], late);
      assert all[UNSIGNED + len..] == early[UNSIGNED + len..] + late;
    }
  }

  /** Nothing is invented and nothing is lost: the bytes are the frames of what was delivered, and the rest. */
  lemma {:induction false} ReceivedIsSent(stream: Text)
    ensures var r := Receive(stream); stream == Stream(r.packets) + r.rest && AllFit(r.packets)
    decreases |stream|
  {
    var r := Receive(stream);
    if r.packets != [] {
      var len := ValueOf(stream[..UNSIGNED]);
      var tail := stream[UNSIGNED + len..];
      ReceivedIsSent(tail);
      FirstFrame(stream, len);
      StreamHead(r.packets, r.rest);
      assert r.packets[1..] == Receive(tail).packets && r.packets[0] == stream[UNSIGNED..UNSIGNED + len];
    }
  }

  lemma FirstFrame(stream: Text, len: nat)
    requires UNSIGNED + len <= |stream| && len == ValueOf(stream[..UNSIGNED])
    ensures stream == Frame(stream[UNSIGNED..UNSIGNED + len]) + stream[UNSIGNED + len..]
  {
    ValueRoundTrip(stream[..UNSIGNED]);
  }

  lemma {:induction false} StreamAppend(ps: seq<Text>, p: Text)
    ensures Stream(ps + [p]) == Stream(ps) + Frame(p)
    decreases |ps|
  {
    if |ps| == 0 {
      assert ps + [p] == [p] && Stream([p]) == Frame(p) + Stream([]);
    } else {
      StreamAppend(ps[1..], p);
      assert (ps + [p])[1..] == ps[1..] + [p];
      assert Frame(ps[0]) + (Stream(ps[1..]) + Frame(p)) == (Frame(ps[0]) + Stream(ps[1..])) + Frame(p);
    }
  }

  // ---------------------------------------------------------------- The socket

  /** How a read ends: the handler is not called any more, or it is told of an error or of a packet. */
  datatype Outcome = Silence | OnError | OnRecv(size: nat)

  class BoostSocket {
    const recvbuf: array<Byte>
    var isPendingDeletion: bool
    /** The bytes that the peer sends before he closes the connection. */
    var incoming: Text
    /** The bytes that were written to the peer. */
    var outgoing: Text
    /** The packets that were sent. */
    ghost var sent: seq<Text>

    ghost predicate Valid()
      reads this
    {
      recvbuf.Length == BUFFER_SIZE && outgoing == Stream(sent)
    }

    constructor (incoming: Text)
      ensures Valid() && fresh(recvbuf) && this.incoming == incoming && sent == [] && !isPendingDeletion
    {
      recvbuf := new Byte[BUFFER_SIZE];
      isPendingDeletion, this.incoming, outgoing, sent := false, incoming, [], [];
    }

    /** Fills the front of the buffer; `ok` is false when the stream ends before. */
    method ReadExactly(n: nat) returns (ok: bool)
      requires n <= recvbuf.Length
      modifies this`incoming, recvbuf
      ensures ok <==> n <= |old(incoming)|
      ensures ok ==> recvbuf[..n] == old(incoming)[..n] && incoming == old(incoming)[n..]
      ensures !ok ==> incoming == old(incoming)
    {
      ok := n <= |incoming|;
      if ok {
        var i := 0;
        while i < n
          invariant i <= n <= |incoming| && recvbuf[..i] == incoming[..i] && incoming == old(incoming)
        {
          recvbuf[i] := incoming[i];
          assert recvbuf[..i + 1] == recvbuf[..i] + [incoming[i]];
          i := i + 1;
        }
        incoming := incoming[n..];
      }
    }

    /** One receive: the length, and then that many bytes. */
    method AsyncRecv() returns (outcome: Outcome)
      requires Valid()
      modifies this`incoming, recvbuf
      ensures Valid()
      ensures old(isPendingDeletion) <==> outcome == Silence
      ensures outcome == OnError ==> Receive(old(incoming)).packets == []
      ensures outcome.OnRecv? ==>
                && outcome.size <= BUFFER_SIZE
                && Receive(old(incoming)) == After([recvbuf[..outcome.size]], Receive(incoming))
    {
      var ok := ReadExactly(UNSIGNED);
      if isPendingDeletion {
        return Silence;
      }
      if !ok {
        return OnError;
      }
      var len := ValueOf(recvbuf[..UNSIGNED]);
      if len > recvbuf.Length {
        return OnError;
      }
      ghost var tail := incoming;
      ok := ReadExactly(len);
      if !ok {
        return OnError;
      }
      assert old(incoming)[UNSIGNED..UNSIGNED + len] == tail[..len] && old(incoming)[UNSIGNED + len..] == tail[len..];
      return OnRecv(len);
    }

    /** Errors of the two writes are ignored; on a closed socket both fail. */
    method SendToClient(data: array<Byte>, size: nat)
      requires Valid() && size <= data.Length
      modifies this`outgoing, this`sent
      ensures Valid() && sent == if isPendingDeletion then old(sent) else old(sent) + [data[..size]]
    {
      if isPendingDeletion {
        return;
      }
      StreamAppend(sent, data[..size]);
      assert outgoing + Raw(size, UNSIGNED) + data[..size] == outgoing + Frame(data[..size]);
      outgoing := outgoing + Raw(size, UNSIGNED);
      outgoing := outgoing + data[..size];
      sent := sent + [data[..size]];
    }

    method ForceClose()
      requires Valid()
      modifies this`isPendingDeletion
      ensures Valid() && isPendingDeletion
    {
      if isPendingDeletion {
        return;
      }
      isPendingDeletion := true;
    }
  }
}
