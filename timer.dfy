/**
 * A countdown timer: a byte count that drops by one for every whole 1/60 s
 * of elapsed time, never below zero, carrying the leftover fraction of a
 * tick over to the next update.
 *
 * The source keeps the elapsed time in an `f32`; here it is an exact `real`.
 */
module CountdownTimer {
  import opened Bytes

  /** The length of one tick: 1/60 s (60 Hz). */
  const TICK_LENGTH: real := 1.0 / 60.0

  function Max(a: int, b: int): int {
    if a < b then b else a
  }

  /**
   * The number of whole ticks in `elapsed`, which is how often the update
   * loop runs: none when less than one tick has built up, otherwise the
   * largest `k` with `k` ticks fitting into `elapsed`.
   */
  function Ticks(elapsed: real): (k: nat)
    ensures elapsed < TICK_LENGTH ==> k == 0
    ensures elapsed >= 0.0 ==> k as real * TICK_LENGTH <= elapsed < (k + 1) as real * TICK_LENGTH
  {
    if elapsed < TICK_LENGTH then 0 else (elapsed * 60.0).Floor
  }

  /** `Ticks` is the only count of ticks that fits `elapsed` that way. */
  lemma TicksUnique(elapsed: real, k: nat)
    requires k as real * TICK_LENGTH <= elapsed < (k + 1) as real * TICK_LENGTH
    ensures Ticks(elapsed) == k
  {
  }

  /** One pass of the loop body on the count: decrement unless already zero. */
  function Decrement(count: u8): u8 {
    if count > 0 then count - 1 else count
  }

  /** The count after `k` passes of the loop body. */
  function DecrementTimes(count: u8, k: nat): (r: u8)
    ensures r <= count
  {
    if k == 0 then count else Decrement(DecrementTimes(count, k - 1))
  }

  /** `k` passes subtract `k`, saturating at zero: the count never wraps. */
  lemma {:induction false} DecrementTimesSaturates(count: u8, k: nat)
    ensures DecrementTimes(count, k) == Max(0, count - k)
  {
    if k > 0 {
      DecrementTimesSaturates(count, k - 1);
    }
  }

  /** Passes made in two batches have the effect of the same passes made at once. */
  lemma {:induction false} DecrementTimesAdd(count: u8, a: nat, b: nat)
    ensures DecrementTimes(DecrementTimes(count, a), b) == DecrementTimes(count, a + b)
  {
    if b > 0 {
      DecrementTimesAdd(count, a, b - 1);
    }
  }

  /** The two fields of a timer. */
  datatype TimerState = TimerState(count: u8, lastTick: real)

  /**
   * What `update(dt)` makes of the timer `s`: less than one tick is left
   * over, and the count has not grown.
   */
  function Advance(s: TimerState, dt: real): (r: TimerState)
    ensures r.lastTick < TICK_LENGTH
    ensures r.count <= s.count
    ensures s.lastTick + dt >= 0.0 ==> r.lastTick >= 0.0
  {
    var total := s.lastTick + dt;
    var k := Ticks(total);
    TimerState(DecrementTimes(s.count, k), total - k as real * TICK_LENGTH)
  }

  /** An update takes one from the count per whole tick elapsed, stopping at zero. */
  lemma AdvanceCount(s: TimerState, dt: real)
    ensures Advance(s, dt).count == Max(0, s.count - Ticks(s.lastTick + dt))
  {
    DecrementTimesSaturates(s.count, Ticks(s.lastTick + dt));
  }

  /**
   * The leftover fraction is carried over: two updates by `dt1` and `dt2`
   * leave the timer as one update by `dt1 + dt2` does, for non-negative
   * frame times.
   */
  lemma AdvanceAccumulates(s: TimerState, dt1: real, dt2: real)
    requires s.lastTick >= 0.0 && dt1 >= 0.0 && dt2 >= 0.0
    ensures Advance(Advance(s, dt1), dt2) == Advance(s, dt1 + dt2)
  {
    var total1 := s.lastTick + dt1;
    var k1 := Ticks(total1);
    var rest := total1 - k1 as real * TICK_LENGTH;
    var k2 := Ticks(rest + dt2);
    TicksUnique(s.lastTick + dt1 + dt2, k1 + k2);
    DecrementTimesAdd(s.count, k1, k2);
  }

  /** A timer seeded at 10 reads 0 after one second (60 ticks) and stays at 0 after any further update. */
  lemma SeededTimerRunsOut(dt: real)
    ensures Advance(TimerState(10, 0.0), 1.0).count == 0
    ensures Advance(Advance(TimerState(10, 0.0), 1.0), dt).count == 0
  {
    TicksUnique(1.0, 60);
    DecrementTimesSaturates(10, 60);
  }

  class Timer {
    var count: u8
    var lastTick: real

    function State(): TimerState
      reads this
    {
      TimerState(count, lastTick)
    }

    /** `Timer::new`: count 0, nothing elapsed. */
    constructor ()
      ensures State() == TimerState(0, 0.0)
    {
      count := 0;
      lastTick := 0.0;
    }

    /** `set_count`: the count is replaced; the elapsed fraction is kept. */
    method SetCount(count: u8)
      modifies this
      ensures Count() == count
      ensures lastTick == old(lastTick)
    {
      this.count := count;
    }

    /** `count`: the current count, read without changing the timer. */
    function Count(): (r: u8)
      reads this
      ensures r == State().count
    {
      count
    }

    /** `update`: add `dt` to the elapsed time, then spend it one whole tick at a time. */
    method Update(dt: real)
      modifies this
      ensures State() == Advance(old(State()), dt)
    {
      lastTick := lastTick + dt;
      ghost var total := lastTick;
      ghost var start := count;
      ghost var ticks: nat := 0;
      while lastTick >= TICK_LENGTH
        invariant lastTick == total - ticks as real * TICK_LENGTH
        invariant ticks > 0 ==> lastTick >= 0.0
        invariant count == DecrementTimes(start, ticks)
        decreases (lastTick * 60.0).Floor
      {
        lastTick := lastTick - TICK_LENGTH;
        if count > 0 {
          count := count - 1;
        }
        ticks := ticks + 1;
      }
      if ticks > 0 {
        TicksUnique(total, ticks);
      }
    }
  }

  /** Client view of `set_count` followed by `count`. */
  method SetThenRead(t: Timer, c: u8) returns (r: u8)
    modifies t
    ensures r == c
  {
    t.SetCount(c);
    r := t.Count();
  }
}
