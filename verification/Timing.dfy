/**
 The read deadline and the ping ticker of one session, as a timed state machine.
 Times are nanoseconds; the ticker is punctual and ping writes succeed.
 */
module Timing {
  import opened Types

  const SECOND := 1_000_000_000
  const PONG_WAIT := 60 * SECOND
  const PING_PERIOD := PONG_WAIT * 9 / 10

  /**
   `now` is the time of the last step, `renewed` when the read deadline was last set,
   `reading` whether the loop waits in a read, `nextPing` when the ticker fires,
   `asked` the first ping sent since the deadline was set.
   */
  datatype Clock = Clock(now: int, renewed: int, reading: bool, nextPing: int, asked: Option<int>, closed: bool)

  /** The loop waits for a read, a pong or a message arrives, the ticker fires, the read times out. */
  datatype Step = Wait | Pong | Message | Ping | Expire

  datatype Timed = Timed(step: Step, at: int)

  function Deadline(k: Clock): int { k.renewed + PONG_WAIT }

  /** The session has set its first deadline and started the ticker. */
  function Start(t: int): Clock { Clock(t, t, false, t + PING_PERIOD, None, false) }

  /** Time does not run back or past the ticker; a waiting read ends at its deadline. */
  predicate Enabled(k: Clock, e: Timed) {
    && !k.closed && k.now <= e.at <= k.nextPing
    && (k.reading && !e.step.Expire? ==> e.at < Deadline(k))
    && match e.step
       case Wait => !k.reading
       case Pong => k.reading
       case Message => k.reading
       case Ping => e.at == k.nextPing
       case Expire => k.reading && e.at == Deadline(k)
  }

  function Next(k: Clock, e: Timed): Clock {
    match e.step
    case Wait => k.(now := e.at, renewed := e.at, reading := true, asked := None)
    case Pong => k.(now := e.at, renewed := e.at, asked := None)
    case Message => k.(now := e.at, reading := false)
    case Ping => k.(now := e.at, nextPing := e.at + PING_PERIOD, asked := if k.asked.None? then Some(e.at) else k.asked)
    case Expire => k.(now := e.at, closed := true)
  }

  predicate IsRun(k: Clock, run: seq<Timed>)
    decreases |run|
  {
    run == [] || (Enabled(k, run[0]) && IsRun(Next(k, run[0]), run[1..]))
  }

  function After(k: Clock, run: seq<Timed>): Clock
    decreases |run|
  {
    if run == [] then k else After(Next(k, run[0]), run[1..])
  }

  /** While the server reads, the peer answers before `window` has passed since it was asked. */
  predicate Answers(k: Clock, run: seq<Timed>, window: int)
    decreases |run|
  {
    run == [] ||
    ((k.reading && k.asked.Some? ==> run[0].at < k.asked.value + window) && Answers(Next(k, run[0]), run[1..], window))
  }

  /** The next ping, or the one not answered yet, comes within a period of the last renewal. */
  predicate Punctual(k: Clock) {
    && k.now <= k.nextPing <= k.now + PING_PERIOD && k.renewed <= k.now
    && (k.reading ==> match k.asked
                      case None => k.nextPing <= k.renewed + PING_PERIOD
                      case Some(p) => k.renewed <= p <= k.renewed + PING_PERIOD)
  }

  lemma {:induction false} NeverExpires(k: Clock, run: seq<Timed>)
    requires Punctual(k) && IsRun(k, run) && Answers(k, run, PONG_WAIT - PING_PERIOD)
    ensures forall e :: e in run ==> !e.step.Expire?
    decreases |run|
  {
    if run != [] {
      assert !run[0].step.Expire?;
      NeverExpires(Next(k, run[0]), run[1..]);
      assert run == [run[0]] + run[1..];
    }
  }

  /** A peer that answers each ping in under PongWait - PingPeriod (6 s) never meets the read deadline. */
  lemma ResponsivePeerStays(t: int, run: seq<Timed>)
    requires IsRun(Start(t), run) && Answers(Start(t), run, PONG_WAIT - PING_PERIOD)
    ensures forall e :: e in run ==> !e.step.Expire?
  {
    NeverExpires(Start(t), run);
  }

  lemma ClosedStops(k: Clock, run: seq<Timed>)
    requires k.closed && IsRun(k, run)
    ensures run == []
  {
  }

  /**
   A peer that is silent from a moment on: as long as the read has not timed out, less than
   PongWait has passed since the last renewal.
   */
  lemma {:induction false} SilentExpires(k: Clock, run: seq<Timed>)
    requires k.reading && !k.closed && k.now < Deadline(k) && IsRun(k, run)
    requires forall e :: e in run ==> e.step.Ping? || e.step.Expire?
    ensures var end := After(k, run);
      && end.renewed == k.renewed
      && (if end.closed then end.now == Deadline(k) else end.reading && end.now < Deadline(k))
    decreases |run|
  {
    if run != [] && !run[0].step.Expire? {
      SilentExpires(Next(k, run[0]), run[1..]);
    } else if run != [] {
      ClosedStops(Next(k, run[0]), run[1..]);
    }
  }

  /** Nothing holds the timeout back: a silent peer's run can always be continued to it. */
  lemma {:induction false} SilentReaches(k: Clock) returns (run: seq<Timed>)
    requires k.reading && !k.closed && k.now < Deadline(k) && k.now <= k.nextPing
    ensures IsRun(k, run) && After(k, run).closed && forall e :: e in run ==> e.step.Ping? || e.step.Expire?
    decreases Deadline(k) - k.nextPing
  {
    if k.nextPing >= Deadline(k) {
      run := [Timed(Expire, Deadline(k))];
      assert IsRun(Next(k, run[0]), run[1..]);
    } else {
      var e := Timed(Ping, k.nextPing);
      var rest := SilentReaches(Next(k, e));
      run := [e] + rest;
      assert run[1..] == rest;
    }
  }

  /** The window is sharp: a peer that takes 6 s over the first ping meets the deadline. */
  lemma LateAnswerExpires()
    ensures var run := [Timed(Wait, 0), Timed(Ping, 54 * SECOND), Timed(Expire, 60 * SECOND)];
      IsRun(Start(0), run) && Answers(Start(0), run, PONG_WAIT - PING_PERIOD + 1)
  {
    var run := [Timed(Wait, 0), Timed(Ping, 54 * SECOND), Timed(Expire, 60 * SECOND)];
    var k1 := Next(Start(0), run[0]);
    var k2 := Next(k1, run[1]);
    assert run[1..][1..] == [run[2]] && run[2..] == [run[2]];
    assert IsRun(k2, [run[2]]) && Answers(k2, [run[2]], PONG_WAIT - PING_PERIOD + 1);
  }
}
