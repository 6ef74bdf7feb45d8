/**
 * The timing helpers of clwrap.h: two clock conversions, the delta timers
 * Timer (milliseconds) and MicroTimer (microseconds within the second), and
 * TimeCounter, which sums the deltas of a MicroTimer it shares with others.
 * The clock itself (gettimeofday) is a parameter: every operation that reads
 * it takes the reading as a TimeVal.
 */
module Timing {
  import opened UInt64

  const MICROS_PER_SECOND: int := 1000000
  const I64_LIMIT: int := 0x8000_0000_0000_0000

  /** A `struct timeval` as gettimeofday fills it. */
  datatype TimeVal = TimeVal(sec: int, usec: int)

  /** A reading the clock can give: microseconds within the second, and a
      second count small enough that `sec * 1000 + usec / 1000` does not
      overflow the signed 64-bit arithmetic timeMillis does it in. */
  predicate IsReading(tv: TimeVal) {
    && 0 <= tv.usec < MICROS_PER_SECOND
    && 0 <= tv.sec
    && tv.sec * 1000 + tv.usec / 1000 < I64_LIMIT
  }

  /** Microseconds since the epoch: the time a reading stands for. */
  function Micros(tv: TimeVal): int {
    tv.sec * MICROS_PER_SECOND + tv.usec
  }

  /** timeMillis(): whole seconds in the thousands, whole milliseconds of
      the current second in the last three digits. */
  function TimeMillis(tv: TimeVal): (r: u64)
    requires IsReading(tv)
    ensures r / 1000 == tv.sec
    ensures r % 1000 == tv.usec / 1000
  {
    tv.sec * 1000 + tv.usec / 1000
  }

  /** timeMicros(): only the microseconds within the current second. */
  function TimeMicros(tv: TimeVal): (r: u64)
    requires IsReading(tv)
    ensures r < MICROS_PER_SECOND
    ensures r == Micros(tv) % MICROS_PER_SECOND
  {
    tv.usec
  }

  /** A later reading never gives a smaller timeMillis. */
  lemma TimeMillisMonotone(t1: TimeVal, t2: TimeVal)
    requires IsReading(t1) && IsReading(t2)
    requires Micros(t1) <= Micros(t2)
    ensures TimeMillis(t1) <= TimeMillis(t2)
  {
    if t1.sec == t2.sec {
      assert t1.usec <= t2.usec;
      DivMonotone(t1.usec, t2.usec);
    } else {
      assert t1.sec < t2.sec;
      assert t1.usec / 1000 < 1000;
    }
  }

  lemma DivMonotone(a: nat, b: nat)
    requires a <= b
    ensures a / 1000 <= b / 1000
  {
  }

  // ---------------------------------------------------------------------
  // Timer

  /** Delta-tracking millisecond timer: each Delta returns the time since the
      previous one (or since construction) and moves the reference point. */
  class Timer {
    var prev: u64

    constructor (now: TimeVal)
      requires IsReading(now)
      ensures prev == TimeMillis(now)
    {
      prev := TimeMillis(now);
    }

    method Delta(now: TimeVal) returns (d: u64)
      requires IsReading(now)
      modifies this
      ensures d == Sub64(TimeMillis(now), old(prev))
      ensures Add64(old(prev), d) == TimeMillis(now)
      ensures prev == TimeMillis(now)
    {
      var millis := TimeMillis(now);
      d := Sub64(millis, prev);
      prev := millis;
    }
  }

  /** The values a Timer's Delta returns for successive readings (already
      converted by timeMillis), starting from reference point prev. */
  function TimerDeltas(prev: u64, readings: seq<u64>): (ds: seq<u64>)
    ensures |ds| == |readings|
    decreases |readings|
  {
    if readings == [] then []
    else [Sub64(readings[0], prev)] + TimerDeltas(readings[0], readings[1..])
  }

  /** The reference point after a run of readings: the last one. */
  function LastReading(prev: u64, readings: seq<u64>): u64 {
    if readings == [] then prev else readings[|readings| - 1]
  }

  /** u64 sum, in the order the deltas were returned. */
  function Sum64(ds: seq<u64>): u64 {
    if ds == [] then 0 else Add64(ds[0], Sum64(ds[1..]))
  }

  /** Successive Timer deltas telescope: their u64 sum is the last reading
      minus the reading taken at construction. */
  lemma {:induction false} TimerDeltasTelescope(prev: u64, readings: seq<u64>)
    ensures Sum64(TimerDeltas(prev, readings)) == Sub64(LastReading(prev, readings), prev)
    decreases |readings|
  {
    if readings != [] {
      var rest := readings[1..];
      TimerDeltasTelescope(readings[0], rest);
      assert TimerDeltas(prev, readings)[1..] == TimerDeltas(readings[0], rest);
      assert LastReading(readings[0], rest) == LastReading(prev, readings);
      SubChain(prev, readings[0], LastReading(prev, readings));
    }
  }

  /** With a clock that does not go backwards, a Timer delta is exactly the
      milliseconds elapsed between the two readings (no wrap-around). */
  lemma TimerDeltaElapsed(t1: TimeVal, t2: TimeVal)
    requires IsReading(t1) && IsReading(t2)
    requires Micros(t1) <= Micros(t2)
    ensures Sub64(TimeMillis(t2), TimeMillis(t1)) == TimeMillis(t2) - TimeMillis(t1)
  {
    TimeMillisMonotone(t1, t2);
  }

  // ---------------------------------------------------------------------
  // MicroTimer

  /** MicroTimer's difference: a reading not above the previous one is taken
      to have wrapped past a second boundary exactly once. The sum is u64. */
  function MicroDelta(prev: u64, now: u64): (d: u64)
    ensures prev < MICROS_PER_SECOND && now < MICROS_PER_SECOND ==>
      && 1 <= d <= MICROS_PER_SECOND
      && d % MICROS_PER_SECOND == (now - prev) % MICROS_PER_SECOND
      && (now == prev ==> d == MICROS_PER_SECOND)
  {
    if now > prev then now - prev else Sub64(Add64(MICROS_PER_SECOND, now), prev)
  }

  /** When the two readings are more than zero and at most one second apart,
      MicroDelta is the true elapsed time in microseconds. */
  lemma MicroDeltaElapsed(t1: TimeVal, t2: TimeVal)
    requires IsReading(t1) && IsReading(t2)
    requires 0 < Micros(t2) - Micros(t1) <= MICROS_PER_SECOND
    ensures MicroDelta(TimeMicros(t1), TimeMicros(t2)) == Micros(t2) - Micros(t1)
  {
    if t2.sec == t1.sec {
      assert t2.usec > t1.usec;
    } else {
      assert t2.sec == t1.sec + 1;
      assert t2.usec <= t1.usec;
    }
  }

  /** Microsecond timer: each Delta returns the microseconds since the
      previous one, assuming at most one second boundary was crossed. */
  class MicroTimer {
    var prev: u64

    ghost predicate Valid()
      reads this
    {
      prev < MICROS_PER_SECOND
    }

    constructor (now: TimeVal)
      requires IsReading(now)
      ensures Valid() && prev == TimeMicros(now)
    {
      prev := TimeMicros(now);
    }

    method Delta(now: TimeVal) returns (d: u64)
      requires Valid() && IsReading(now)
      modifies this
      ensures Valid() && prev == TimeMicros(now)
      ensures d == MicroDelta(old(prev), TimeMicros(now))
      ensures 1 <= d <= MICROS_PER_SECOND
      ensures d % MICROS_PER_SECOND == (prev - old(prev)) % MICROS_PER_SECOND
      ensures prev == old(prev) ==> d == MICROS_PER_SECOND
    {
      var micros := TimeMicros(now);
      d := MicroDelta(prev, micros);
      prev := micros;
    }
  }

  /** The values a MicroTimer's Delta returns for successive microsecond
      readings, starting from reference point prev. */
  function MicroDeltas(prev: u64, readings: seq<u64>): (ds: seq<u64>)
    ensures |ds| == |readings|
    decreases |readings|
  {
    if readings == [] then []
    else [MicroDelta(prev, readings[0])] + MicroDeltas(readings[0], readings[1..])
  }

  /** How many steps of a run of readings did not go up: each of them is
      counted by MicroDelta as crossing one second boundary. */
  function Wraps(prev: u64, readings: seq<u64>): nat
    decreases |readings|
  {
    if readings == [] then 0
    else (if readings[0] > prev then 0 else 1) + Wraps(readings[0], readings[1..])
  }

  function Total(ds: seq<int>): int {
    if ds == [] then 0 else ds[0] + Total(ds[1..])
  }

  predicate AllMicros(readings: seq<u64>) {
    forall k :: 0 <= k < |readings| ==> readings[k] < MICROS_PER_SECOND
  }

  /** Successive MicroTimer deltas add up to the last reading minus the first
      plus one whole second per step that did not go up. */
  lemma {:induction false} MicroDeltasTelescope(prev: u64, readings: seq<u64>)
    requires prev < MICROS_PER_SECOND && AllMicros(readings)
    ensures Total(MicroDeltas(prev, readings))
         == LastReading(prev, readings) - prev + MICROS_PER_SECOND * Wraps(prev, readings)
    decreases |readings|
  {
    if readings != [] {
      var rest := readings[1..];
      assert AllMicros(rest) by {
        forall k | 0 <= k < |rest| ensures rest[k] < MICROS_PER_SECOND {
          assert rest[k] == readings[k + 1];
        }
      }
      MicroDeltasTelescope(readings[0], rest);
      assert MicroDeltas(prev, readings)[1..] == MicroDeltas(readings[0], rest);
      assert LastReading(readings[0], rest) == LastReading(prev, readings);
    }
  }

  /** Hence the deltas always agree with the readings modulo one second. */
  lemma MicroDeltasModSecond(prev: u64, readings: seq<u64>)
    requires prev < MICROS_PER_SECOND && AllMicros(readings)
    ensures Total(MicroDeltas(prev, readings)) % MICROS_PER_SECOND
         == (LastReading(prev, readings) - prev) % MICROS_PER_SECOND
  {
    MicroDeltasTelescope(prev, readings);
    AddSecondsMod(LastReading(prev, readings) - prev, Wraps(prev, readings));
  }

  lemma {:induction false} AddSecondsMod(x: int, w: nat)
    ensures (x + MICROS_PER_SECOND * w) % MICROS_PER_SECOND == x % MICROS_PER_SECOND
  {
    if w > 0 {
      AddSecondsMod(x, w - 1);
      assert x + MICROS_PER_SECOND * w == (x + MICROS_PER_SECOND * (w - 1)) + MICROS_PER_SECOND;
    }
  }

  // ---------------------------------------------------------------------
  // TimeCounter

  /** Accumulates the deltas of a MicroTimer that other counters may share. */
  class TimeCounter {
    const timer: MicroTimer
    var us: u64

    constructor (t: MicroTimer)
      ensures timer == t && us == 0
    {
      timer := t;
      us := 0;
    }

    /** Adds the shared timer's delta; moves that timer's reference point. */
    method Tick(now: TimeVal)
      requires timer.Valid() && IsReading(now)
      modifies this, timer
      ensures timer.Valid() && timer.prev == TimeMicros(now)
      ensures us == Add64(old(us), MicroDelta(old(timer.prev), TimeMicros(now)))
    {
      var d := timer.Delta(now);
      us := Add64(us, d);
    }

    method Get() returns (r: u64)
      ensures r == us
    {
      r := us;
    }

    method Reset()
      modifies this
      ensures us == 0
    {
      us := 0;
    }
  }

  /** The counter's value after ticks that added ds, starting from us. */
  function Accumulated(us: u64, ds: seq<u64>): u64
    decreases |ds|
  {
    if ds == [] then us else Accumulated(Add64(us, ds[0]), ds[1..])
  }

  /** Ticks are additive modulo 2^64: from us, ticks adding ds give
      us plus the sum of ds, wrapped. */
  lemma {:induction false} AccumulatedIsSum(us: u64, ds: seq<u64>)
    ensures Accumulated(us, ds) == (us + Total(ds)) % U64_MODULUS
    decreases |ds|
  {
    if ds != [] {
      AccumulatedIsSum(Add64(us, ds[0]), ds[1..]);
      ModAddLeft(us + ds[0], Total(ds[1..]));
    }
  }

  lemma ModAddLeft(x: nat, y: int)
    ensures ((x % U64_MODULUS) + y) % U64_MODULUS == (x + y) % U64_MODULUS
  {
    var q := x / U64_MODULUS;
    assert x == q * U64_MODULUS + x % U64_MODULUS;
    AddModulusMultiple(x % U64_MODULUS + y, q);
  }

  lemma {:induction false} AddModulusMultiple(z: int, q: nat)
    ensures (z + q * U64_MODULUS) % U64_MODULUS == z % U64_MODULUS
  {
    if q > 0 {
      AddModulusMultiple(z, q - 1);
      assert z + q * U64_MODULUS == (z + (q - 1) * U64_MODULUS) + U64_MODULUS;
    }
  }

  /** A counter that was reset and then ticked three times holds the sum of
      the three deltas, modulo 2^64. */
  method ResetThenThreeTicks(c: TimeCounter, t1: TimeVal, t2: TimeVal, t3: TimeVal)
      returns (total: u64)
    requires c.timer.Valid() && IsReading(t1) && IsReading(t2) && IsReading(t3)
    modifies c, c.timer
    ensures total == (MicroDelta(old(c.timer.prev), TimeMicros(t1))
                      + MicroDelta(TimeMicros(t1), TimeMicros(t2))
                      + MicroDelta(TimeMicros(t2), TimeMicros(t3))) % U64_MODULUS
  {
    ghost var p := c.timer.prev;
    c.Reset();
    c.Tick(t1);
    c.Tick(t2);
    c.Tick(t3);
    total := c.Get();
    ghost var ds := [MicroDelta(p, TimeMicros(t1)), MicroDelta(TimeMicros(t1), TimeMicros(t2)),
                     MicroDelta(TimeMicros(t2), TimeMicros(t3))];
    AccumulatedIsSum(0, ds);
    assert Total(ds[2..]) == ds[2] by { assert ds[2..][1..] == []; }
    assert Total(ds[1..]) == ds[1] + ds[2] by { assert ds[1..][1..] == ds[2..]; }
  }
}
