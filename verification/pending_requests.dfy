/** The two-generation buffer of friend requests that wait for an answer. */
module PendingRequests {
  import opened Basics

  /** One second in ticks of the system clock (nanoseconds). */
  const SECOND: int := 1_000_000_000

  /** The age in seconds at which a waiting request is no longer an invitation. */
  const LIFETIME: int := 20

  datatype Request = Request(sender: Uid, recipient: Uid)

  datatype Answer = AlreadyInBuffer | SuccesfullyAdded | ThatWasAMatch

  type Stamps = map<Request, int>

  /** `front` collects, `back` is the generation that the next cleanup throws away. */
  datatype Buffers = Buffers(front: Stamps, back: Stamps)

  const EMPTY: Buffers := Buffers(map[], map[])

  function Reverse(r: Request): Request {
    Request(r.recipient, r.sender)
  }

  /** duration_cast to seconds: it cuts the fraction off, towards zero. */
  function WholeSeconds(ticks: int): int {
    if ticks >= 0 then ticks / SECOND else -(-ticks / SECOND)
  }

  predicate Fresh(stamp: int, now: int) {
    WholeSeconds(now - stamp) < LIFETIME
  }

  /** Cutting the fraction off moves no request across the deadline. */
  lemma FreshIsYoung(stamp: int, now: int)
    ensures Fresh(stamp, now) <==> now - stamp < LIFETIME * SECOND
    ensures Fresh(stamp, now) <==> now - stamp < 20_000_000_000
  {
    var d := now - stamp;
    if d >= 0 {
      assert d == d / SECOND * SECOND + d % SECOND;
    } else {
      assert -d / SECOND >= 0;
    }
  }

  /** A request that process_add_friend_request would still find: only the back copy is checked for age. */
  predicate Live(b: Buffers, r: Request, now: int) {
    r in b.front || (r in b.back && Fresh(b.back[r], now))
  }

  /** Forgets the copy that the search order (front, then back) finds first. */
  function Consume(b: Buffers, r: Request): Buffers {
    if r in b.front then b.(front := b.front - {r}) else b.(back := b.back - {r})
  }

  function Cleanup(b: Buffers): Buffers {
    Buffers(map[], b.front)
  }

  function AnswerTo(b: Buffers, r: Request, now: int): Answer {
    if Live(b, Reverse(r), now) then ThatWasAMatch
    else if Live(b, r, now) then AlreadyInBuffer
    else SuccesfullyAdded
  }

  function Process(b: Buffers, r: Request, now: int): Buffers {
    match AnswerTo(b, r, now)
    case ThatWasAMatch => Consume(b, Reverse(r))
    case AlreadyInBuffer => Consume(b, r)
    case SuccesfullyAdded => b.(front := b.front[r := now])
  }

  // ---------------------------------------------------------------- The class

  class PendingFriendRequests {
    var front: Stamps
    var back: Stamps

    ghost function State(): Buffers
      reads this
    {
      Buffers(front, back)
    }

    constructor ()
      ensures State() == EMPTY
    {
      front, back := map[], map[];
    }

    method PeriodicCleanup()
      modifies this
      ensures State() == Cleanup(old(State()))
    {
      back := map[];
      front, back := back, front;
    }

    method ProcessAddFriendRequest(sender: Uid, recipient: Uid, now: int) returns (answer: Answer)
      modifies this
      ensures answer == AnswerTo(old(State()), Request(sender, recipient), now)
      ensures State() == Process(old(State()), Request(sender, recipient), now)
    {
      // an answer to a request that waits, in either generation
      var reverse := Request(recipient, sender);
      if reverse in front {
        front := front - {reverse};
        return ThatWasAMatch;
      }
      if reverse in back {
        var seconds := WholeSeconds(now - back[reverse]);
        if seconds < LIFETIME {
          back := back - {reverse};
          return ThatWasAMatch;
        }
      }
      // the same request again
      var request := Request(sender, recipient);
      if request in front {
        front := front - {request};
        return AlreadyInBuffer;
      }
      if request in back {
        var seconds := WholeSeconds(now - back[request]);
        if seconds < LIFETIME {
          back := back - {request};
          return AlreadyInBuffer;
        }
      }
      front := front[request := now];
      return SuccesfullyAdded;
    }
  }

  // ---------------------------------------------------------------- The simple form: one map, one deadline

  datatype Event = Tick(at: int) | Ask(request: Request, at: int)

  /** Times never go back; cleanups are at least `LIFETIME` and at most `gap` apart; a request at the
      instant of a cleanup comes after it. */
  predicate WellTimed(run: seq<Event>, lastTick: int, now: int, gap: int)
    decreases |run|
  {
    run == [] ||
    (&& now <= run[0].at
     && match run[0]
        case Tick(at) => LIFETIME * SECOND <= at - lastTick <= gap && WellTimed(run[1..], at, at, gap)
        case Ask(_, at) => at - lastTick < gap && WellTimed(run[1..], lastTick, at, gap))
  }

  /** The answers that the two-generation buffer gives in a run. */
  function Answers(b: Buffers, run: seq<Event>): seq<Answer>
    decreases |run|
  {
    if |run| == 0 then [] else
    match run[0]
    case Tick(_) => Answers(Cleanup(b), run[1..])
    case Ask(r, at) => [AnswerTo(b, r, at)] + Answers(Process(b, r, at), run[1..])
  }

  function BuffersAfter(b: Buffers, run: seq<Event>): Buffers
    decreases |run|
  {
    if |run| == 0 then b else
    match run[0]
    case Tick(_) => BuffersAfter(Cleanup(b), run[1..])
    case Ask(r, at) => BuffersAfter(Process(b, r, at), run[1..])
  }

  /** `sent` maps every request that was added and not consumed since to its time; it knows no cleanup. */
  predicate Younger(sent: Stamps, r: Request, now: int, age: int) {
    r in sent && now - sent[r] < age
  }

  /** An answer that a map may give whose entries surely live below `LIFETIME` and surely not from `gap` on. */
  predicate Permitted(sent: Stamps, r: Request, now: int, gap: int, a: Answer) {
    var deadline := LIFETIME * SECOND;
    match a
    case ThatWasAMatch => Younger(sent, Reverse(r), now, gap)
    case AlreadyInBuffer => !Younger(sent, Reverse(r), now, deadline) && Younger(sent, r, now, gap)
    case SuccesfullyAdded => !Younger(sent, Reverse(r), now, deadline) && !Younger(sent, r, now, deadline)
  }

  function SentAfter(sent: Stamps, r: Request, now: int, a: Answer): Stamps {
    match a
    case ThatWasAMatch => sent - {Reverse(r)}
    case AlreadyInBuffer => sent - {r}
    case SuccesfullyAdded => sent[r := now]
  }

  /** Every answer of the run is one that the simple map permits. */
  predicate AllPermitted(sent: Stamps, run: seq<Event>, gap: int, answers: seq<Answer>)
    decreases |run|
  {
    if |run| == 0 then answers == [] else
    match run[0]
    case Tick(_) => AllPermitted(sent, run[1..], gap, answers)
    case Ask(r, at) =>
      && answers != []
      && Permitted(sent, r, at, gap, answers[0])
      && AllPermitted(SentAfter(sent, r, at, answers[0]), run[1..], gap, answers[1..])
  }

  /** The map with a time to live of exactly `LIFETIME`: its answers. */
  function SimpleAnswers(sent: Stamps, run: seq<Event>): seq<Answer>
    decreases |run|
  {
    if |run| == 0 then [] else
    match run[0]
    case Tick(_) => SimpleAnswers(sent, run[1..])
    case Ask(r, at) =>
      var deadline := LIFETIME * SECOND;
      var a := if Younger(sent, Reverse(r), at, deadline) then ThatWasAMatch
               else if Younger(sent, r, at, deadline) then AlreadyInBuffer
               else SuccesfullyAdded;
      [a] + SimpleAnswers(SentAfter(sent, r, at, a), run[1..])
  }

  function SentAfterRun(b: Buffers, sent: Stamps, run: seq<Event>): Stamps
    decreases |run|
  {
    if |run| == 0 then sent else
    match run[0]
    case Tick(_) => SentAfterRun(Cleanup(b), sent, run[1..])
    case Ask(r, at) =>
      SentAfterRun(Process(b, r, at), SentAfter(sent, r, at, AnswerTo(b, r, at)), run[1..])
  }

  /** What the two generations and the simple map have in common at time `now`. */
  ghost predicate Coupled(b: Buffers, sent: Stamps, lastTick: int, now: int) {
    && lastTick <= now
    && (forall r <- b.front :: r in sent && sent[r] == b.front[r] && lastTick <= sent[r] <= now)
    && (forall r <- b.back :: b.back[r] <= lastTick)
    && (forall r <- b.back :: Fresh(b.back[r], now) ==> r !in b.front && r in sent && sent[r] == b.back[r])
    && (forall r <- sent :: sent[r] <= now)
    && (forall r <- sent :: now - sent[r] < LIFETIME * SECOND ==>
                              r in b.front || (r in b.back && b.back[r] == sent[r]))
  }

  lemma CoupledLater(b: Buffers, sent: Stamps, lastTick: int, now: int, later: int)
    requires Coupled(b, sent, lastTick, now) && now <= later
    ensures Coupled(b, sent, lastTick, later)
  {
    forall r <- b.back
      ensures Fresh(b.back[r], later) ==> Fresh(b.back[r], now)
    {
      FreshIsYoung(b.back[r], now);
      FreshIsYoung(b.back[r], later);
    }
  }

  lemma CoupledCleanup(b: Buffers, sent: Stamps, lastTick: int, at: int)
    requires Coupled(b, sent, lastTick, at) && LIFETIME * SECOND <= at - lastTick
    ensures Coupled(Cleanup(b), sent, at, at)
  {
    forall r <- b.front
      ensures Fresh(b.front[r], at) ==> r in sent && sent[r] == b.front[r]
    {
    }
  }

  /** Live requests are exactly the ones the simple map must keep, up to those it may already drop. */
  lemma LiveBounds(b: Buffers, sent: Stamps, lastTick: int, now: int, gap: int, r: Request)
    requires Coupled(b, sent, lastTick, now) && now - lastTick < gap && LIFETIME * SECOND <= gap
    ensures Younger(sent, r, now, LIFETIME * SECOND) ==> Live(b, r, now)
    ensures Live(b, r, now) ==> Younger(sent, r, now, gap)
  {
    if r in b.back {
      FreshIsYoung(b.back[r], now);
    }
  }

  lemma CoupledAsk(b: Buffers, sent: Stamps, lastTick: int, at: int, gap: int, r: Request)
    requires Coupled(b, sent, lastTick, at) && at - lastTick < gap && LIFETIME * SECOND <= gap
    ensures Permitted(sent, r, at, gap, AnswerTo(b, r, at))
    ensures Coupled(Process(b, r, at), SentAfter(sent, r, at, AnswerTo(b, r, at)), lastTick, at)
  {
    LiveBounds(b, sent, lastTick, at, gap, r);
    LiveBounds(b, sent, lastTick, at, gap, Reverse(r));
    forall q <- b.back
      ensures Fresh(b.back[q], at) <==> at - b.back[q] < LIFETIME * SECOND
    {
      FreshIsYoung(b.back[q], at);
    }
  }

  /** Timed refinement, for every run: whatever delay the timer has, each answer is one that a map
      with a time to live between `LIFETIME` and `gap` gives, and at the end a request that was sent
      and not consumed is live below age `LIFETIME` and dead from age `gap` on. */
  lemma {:induction false} TimedRefinement(b: Buffers, sent: Stamps, run: seq<Event>, lastTick: int, now: int, gap: int)
    requires Coupled(b, sent, lastTick, now) && LIFETIME * SECOND <= gap
    requires WellTimed(run, lastTick, now, gap)
    ensures AllPermitted(sent, run, gap, Answers(b, run))
    ensures var (lastTick', now') := ClockAfter(run, lastTick, now);
            Coupled(BuffersAfter(b, run), SentAfterRun(b, sent, run), lastTick', now')
    decreases |run|
  {
    if run != [] {
      CoupledLater(b, sent, lastTick, now, run[0].at);
      match run[0]
      case Tick(at) =>
        CoupledCleanup(b, sent, lastTick, at);
        TimedRefinement(Cleanup(b), sent, run[1..], at, at, gap);
      case Ask(r, at) =>
        CoupledAsk(b, sent, lastTick, at, gap, r);
        TimedRefinement(Process(b, r, at), SentAfter(sent, r, at, AnswerTo(b, r, at)), run[1..], lastTick, at, gap);
    }
  }

  /** The times of the last cleanup and of the last event of a run. */
  function ClockAfter(run: seq<Event>, lastTick: int, now: int): (int, int)
    decreases |run|
  {
    if |run| == 0 then (lastTick, now) else
    match run[0]
    case Tick(at) => ClockAfter(run[1..], at, at)
    case Ask(_, at) => ClockAfter(run[1..], lastTick, at)
  }

  /** After any run from the start, at any moment before the next cleanup is overdue: an unconsumed
      request is live at every age below `LIFETIME` and dead at every age of `gap` or more. */
  lemma {:induction false} LiveWindow(run: seq<Event>, start: int, gap: int, later: int, r: Request)
    requires LIFETIME * SECOND <= gap && WellTimed(run, start, start, gap)
    requires var (lastTick, now) := ClockAfter(run, start, start); now <= later < lastTick + gap
    ensures var sent := SentAfterRun(EMPTY, map[], run);
            && (Younger(sent, r, later, LIFETIME * SECOND) ==> Live(BuffersAfter(EMPTY, run), r, later))
            && (Live(BuffersAfter(EMPTY, run), r, later) ==> Younger(sent, r, later, gap))
  {
    var (lastTick, now) := ClockAfter(run, start, start);
    var sent := SentAfterRun(EMPTY, map[], run);
    TimedRefinement(EMPTY, map[], run, start, start, gap);
    CoupledLater(BuffersAfter(EMPTY, run), sent, lastTick, now, later);
    LiveBounds(BuffersAfter(EMPTY, run), sent, lastTick, later, gap, r);
  }

  lemma {:induction false} OnlySimpleAnswersPermitted(sent: Stamps, run: seq<Event>, answers: seq<Answer>)
    requires AllPermitted(sent, run, LIFETIME * SECOND, answers)
    ensures answers == SimpleAnswers(sent, run)
    decreases |run|
  {
    if run != [] {
      match run[0]
      case Tick(_) => OnlySimpleAnswersPermitted(sent, run[1..], answers);
      case Ask(r, at) =>
        assert answers == [answers[0]] + answers[1..];
        OnlySimpleAnswersPermitted(SentAfter(sent, r, at, answers[0]), run[1..], answers[1..]);
    }
  }

  /** With a punctual timer the two generations are exactly one map with a time to live of 20 s. */
  lemma {:induction false} PunctualRefinement(run: seq<Event>, start: int)
    requires WellTimed(run, start, start, LIFETIME * SECOND)
    ensures Answers(EMPTY, run) == SimpleAnswers(map[], run)
  {
    TimedRefinement(EMPTY, map[], run, start, start, LIFETIME * SECOND);
    OnlySimpleAnswersPermitted(map[], run, Answers(EMPTY, run));
  }

  /** The refinement is exact for a punctual timer and for no other: a timer that may be late by any
      amount lets a request of age `LIFETIME` in the unchecked front generation still make a match. */
  lemma ExactForPunctualTimersOnly(start: int, gap: int)
    requires LIFETIME * SECOND <= gap
    ensures (forall run | WellTimed(run, start, start, gap) :: Answers(EMPTY, run) == SimpleAnswers(map[], run))
        <==> gap == LIFETIME * SECOND
  {
    if gap == LIFETIME * SECOND {
      forall run | WellTimed(run, start, start, gap)
        ensures Answers(EMPTY, run) == SimpleAnswers(map[], run)
      {
        PunctualRefinement(run, start);
      }
    } else {
      var late := start + LIFETIME * SECOND;
      var run := [Ask(Request(1, 2), start), Ask(Request(2, 1), late)];
      var rest := [Ask(Request(2, 1), late)];
      assert run[1..] == rest && rest[1..] == [];
      assert WellTimed(rest[1..], start, late, gap);
      assert WellTimed(rest, start, start, gap);
      assert WellTimed(run, start, start, gap);
      var b := Process(EMPTY, Request(1, 2), start);
      assert Answers(EMPTY, run) == [SuccesfullyAdded] + Answers(b, rest);
      assert Answers(b, rest)[0] == ThatWasAMatch;
      var sent := map[Request(1, 2) := start];
      assert SimpleAnswers(map[], run) == [SuccesfullyAdded] + SimpleAnswers(sent, rest);
      assert SimpleAnswers(sent, rest)[0] == SuccesfullyAdded;
      assert Answers(EMPTY, run)[1] != SimpleAnswers(map[], run)[1];
    }
  }

  /** Times do not go back; cleanups may come at any of them. */
  predicate InOrder(run: seq<Event>, now: int)
    decreases |run|
  {
    |run| == 0 || (now <= run[0].at && InOrder(run[1..], run[0].at))
  }

  function EndOf(run: seq<Event>, now: int): int {
    if |run| == 0 then now else run[|run| - 1].at
  }

  predicate NotSent(run: seq<Event>, r: Request) {
    forall i :: 0 <= i < |run| && run[i].Ask? ==> run[i].request != r
  }

  lemma ProcessRevivesNobody(b: Buffers, q: Request, at: int, r: Request)
    requires !Live(b, r, at) && q != r
    ensures !Live(Process(b, q, at), r, at)
  {
  }

  /** Whatever happens, a dead request stays dead until it is sent again. */
  lemma {:induction false} StaysDead(b: Buffers, r: Request, run: seq<Event>, now: int, later: int)
    requires !Live(b, r, now) && InOrder(run, now) && NotSent(run, r) && EndOf(run, now) <= later
    ensures !Live(BuffersAfter(b, run), r, later)
    decreases |run|
  {
    if |run| == 0 {
      DeadStaysDead(b, r, now, later);
    } else {
      DeadStaysDead(b, r, now, run[0].at);
      assert NotSent(run[1..], r) by {
        assert forall i | 0 <= i < |run[1..]| :: run[1..][i] == run[i + 1];
      }
      match run[0]
      case Tick(at) => StaysDead(Cleanup(b), r, run[1..], at, later);
      case Ask(q, at) =>
        ProcessRevivesNobody(b, q, at, r);
        StaysDead(Process(b, q, at), r, run[1..], at, later);
    }
  }

  /** Sending a live request again withdraws it: whatever happens afterwards, and whenever, it is dead until it is sent
      once more, although the answer says that the previous one still waits. */
  lemma {:induction false} ResendWithdraws(b: Buffers, r: Request, now: int, run: seq<Event>, later: int)
    requires OneCopy(b, r, now) && AnswerTo(b, r, now) == AlreadyInBuffer
    requires InOrder(run, now) && NotSent(run, r) && EndOf(run, now) <= later
    ensures !Live(BuffersAfter(Process(b, r, now), run), r, later)
  {
    StaysDead(Process(b, r, now), r, run, now, later);
  }

  // ---------------------------------------------------------------- What one step does to liveness

  /** A request that is dead stays dead until it is sent again: a stale copy never comes back. */
  lemma DeadStaysDead(b: Buffers, r: Request, now: int, later: int)
    requires now <= later && !Live(b, r, now)
    ensures !Live(b, r, later) && !Live(Cleanup(b), r, later)
  {
    if r in b.back {
      FreshIsYoung(b.back[r], now);
      FreshIsYoung(b.back[r], later);
    }
  }

  /** Only one of the two copies of a request can be live. */
  predicate OneCopy(b: Buffers, r: Request, now: int) {
    r in b.front && r in b.back ==> !Fresh(b.back[r], now)
  }

  lemma OneCopyLater(b: Buffers, r: Request, now: int, later: int)
    requires OneCopy(b, r, now) && now <= later
    ensures OneCopy(b, r, later)
  {
    if r in b.back {
      FreshIsYoung(b.back[r], now);
      FreshIsYoung(b.back[r], later);
    }
  }

  // ---------------------------------------------------------------- A request waits for its answer

  /** The copy that was stored at `sent` is there, and has been through one cleanup at most. */
  predicate Waits(b: Buffers, r: Request, sent: int, lastTick: int) {
    || (r in b.front && b.front[r] == sent)
    || (r in b.back && b.back[r] == sent && sent <= lastTick)
  }

  /** Nobody sends the request again or answers it. */
  predicate Untouched(run: seq<Event>, r: Request) {
    forall i :: 0 <= i < |run| && run[i].Ask? ==> run[i].request != r && run[i].request != Reverse(r)
  }

  lemma {:induction false} ClockGoesForward(run: seq<Event>, lastTick: int, now: int, gap: int)
    requires WellTimed(run, lastTick, now, gap)
    ensures now <= ClockAfter(run, lastTick, now).1
    decreases |run|
  {
    if |run| > 0 {
      match run[0]
      case Tick(at) => ClockGoesForward(run[1..], at, at, gap);
      case Ask(_, at) => ClockGoesForward(run[1..], lastTick, at, gap);
    }
  }

  lemma ProcessKeepsOthers(b: Buffers, q: Request, at: int, r: Request, sent: int, lastTick: int)
    requires Waits(b, r, sent, lastTick) && q != r && q != Reverse(r)
    ensures Waits(Process(b, q, at), r, sent, lastTick)
  {
    assert Reverse(q) != r;
  }

  /** Whatever requests others make and whenever the cleanups come, a request that waits can be answered until it
      is 20 seconds old. */
  lemma {:induction false} StaysLive(
    b: Buffers, r: Request, sent: int, run: seq<Event>, lastTick: int, now: int, gap: int, later: int)
    requires Waits(b, r, sent, lastTick) && sent <= now && WellTimed(run, lastTick, now, gap) && Untouched(run, r)
    requires ClockAfter(run, lastTick, now).1 <= later < sent + LIFETIME * SECOND
    ensures Live(BuffersAfter(b, run), r, later)
    decreases |run|
  {
    if |run| == 0 {
      FreshIsYoung(sent, later);
    } else {
      assert Untouched(run[1..], r) by {
        assert forall i | 0 <= i < |run[1..]| :: run[1..][i] == run[i + 1];
      }
      match run[0]
      case Tick(at) =>
        ClockGoesForward(run[1..], at, at, gap);
        StaysLive(Cleanup(b), r, sent, run[1..], at, at, gap, later);
      case Ask(q, at) =>
        ProcessKeepsOthers(b, q, at, r, sent, lastTick);
        StaysLive(Process(b, q, at), r, sent, run[1..], lastTick, at, gap, later);
    }
  }
}
