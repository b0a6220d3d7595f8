/** pkg/audio/util.go: `TimeBuffer`, which throttles a producer that runs
    ahead of real time.

    The producer reports how much audio time it has produced; once that runs
    more than `max` ahead of the wall clock, `Add` sleeps the difference and
    restarts the count. Times and durations are integers of nanoseconds, as
    `time.Time` and `time.Duration` are. The clock readings `time.Now()`
    before and after the sleep are parameters. */
module TimeBuffers {

  /** The fields of a TimeBuffer. */
  datatype TimeState = TimeState(max: int, start: int, elapsed: int)

  /** The outcome of one `Add`: how long it slept (0 for no sleep) and the
      new fields. */
  datatype AddStep = AddStep(slept: int, next: TimeState)

  /** `Add(d)` when `time.Now()` reads now before the sleep and later after
      it. */
  function AddSpec(s: TimeState, d: int, now: int, later: int): AddStep
  {
    var elapsed := s.elapsed + d;
    if elapsed > s.max then
      var allowedAt := now + s.max;
      var bufferedAt := s.start + elapsed;
      var wait := bufferedAt - allowedAt;
      if wait > 0 then AddStep(wait, TimeState(s.max, later, 0))
      else AddStep(0, s.(elapsed := elapsed))
    else AddStep(0, s.(elapsed := elapsed))
  }

  /** `Add` first adds d to `elapsed`; within `max` nothing else happens. */
  lemma AddWithinMax(s: TimeState, d: int, now: int, later: int)
    requires s.elapsed + d <= s.max
    ensures AddSpec(s, d, now, later) == AddStep(0, s.(elapsed := s.elapsed + d))
  {
  }

  /** Past `max`, the wait is how far the produced time runs ahead of the
      clock plus `max`; a positive wait is slept and restarts the count at
      the clock after the sleep, and any other leaves `start` alone and keeps
      accumulating. */
  lemma AddPastMax(s: TimeState, d: int, now: int, later: int)
    requires s.elapsed + d > s.max
    ensures var wait := (s.start + s.elapsed + d) - (now + s.max);
      var r := AddSpec(s, d, now, later);
      (wait > 0 ==> r == AddStep(wait, TimeState(s.max, later, 0)))
      && (wait <= 0 ==> r == AddStep(0, s.(elapsed := s.elapsed + d)))
  {
  }

  /** `max` never changes, and a sleep happens only with a positive wait. */
  lemma AddKeepsMax(s: TimeState, d: int, now: int, later: int)
    ensures var r := AddSpec(s, d, now, later);
      r.next.max == s.max && r.slept >= 0
      && (r.slept > 0 ==> s.elapsed + d > s.max && r.slept == (s.start + s.elapsed + d) - (now + s.max)
                          && r.next.start == later && r.next.elapsed == 0)
      && (r.slept == 0 ==> r.next.start == s.start && r.next.elapsed == s.elapsed + d)
  {
  }

  /** How far the produced time runs ahead of a clock reading. */
  function Lead(s: TimeState, clock: int): int
  {
    s.start + s.elapsed - clock
  }

  /** The point of the type: if the count started no later than the clock,
      the clock only moves forward, and `max` is not negative, then after
      `Add` the producer is at most `max` ahead of the clock (read after the
      sleep when there was one). */
  lemma AddBoundsLead(s: TimeState, d: int, now: int, later: int)
    requires s.start <= now <= later && s.max >= 0
    ensures var r := AddSpec(s, d, now, later);
      Lead(r.next, if r.slept > 0 then later else now) <= s.max
      && r.next.start <= (if r.slept > 0 then later else now)
  {
  }

  /** The Go object. */
  class TimeBuffer {
    var max: int
    var start: int
    var elapsed: int

    function State(): TimeState
      reads this
    {
      TimeState(max, start, elapsed)
    }

    /** `NewTimeBuffer(max)` at clock reading now. */
    constructor (max: int, now: int)
      ensures State() == TimeState(max, now, 0)
    {
      this.max := max;
      start := now;
      elapsed := 0;
    }

    /** `Add(d)`: returns how long it slept. */
    method Add(d: int, now: int, later: int) returns (slept: int)
      modifies this
      ensures AddSpec(old(State()), d, now, later) == AddStep(slept, State())
    {
      slept := 0;
      elapsed := elapsed + d;
      if elapsed > max {
        var allowedAt := now + max;
        var bufferedAt := start + elapsed;
        var wait := bufferedAt - allowedAt;
        if wait > 0 {
          slept := wait;
          start := later;
          elapsed := 0;
        }
      }
    }
  }
}
