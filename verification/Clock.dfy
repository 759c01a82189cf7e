/** Clocks of a peer-time-sync node (peer-time-sync/clock.c).

    An instant is an integer count of nanoseconds of CLOCK_MONOTONIC.  The natural clock
    of a node is computed from two timespecs exactly as in the source, including C's
    division, which truncates toward zero. */
module Clock {
  import opened Wrappers

  const UNSYNCHRONIZED := 255
  const LEADER := 0

  const NS_PER_MS := 1_000_000
  const NS_PER_SEC := 1_000_000_000

  /** C's `a / b` for a positive divisor: the quotient is rounded toward zero. */
  function TruncDiv(a: int, b: int): (q: int)
    requires b > 0
    ensures a >= 0 ==> q >= 0 && a - b < q * b <= a
    ensures a <= 0 ==> q <= 0 && a <= q * b < a + b
  {
    if a >= 0 then a / b else -((-a) / b)
  }

  datatype Timespec = Timespec(sec: int, nsec: int)

  /** What clock_gettime stores at an instant. */
  function At(t: int): Timespec {
    Timespec(t / NS_PER_SEC, t % NS_PER_SEC)
  }

  predicate CheckOrder(before: Timespec, after: Timespec) {
    before.sec < after.sec || (before.sec == after.sec && before.nsec < after.nsec)
  }

  /** Comparing timespecs compares instants, and adding to tv_sec adds seconds, so timers
      can be kept as instants. */
  lemma TimersAreInstants(a: int, b: int, seconds: int)
    ensures CheckOrder(At(a), At(b)) <==> a < b
    ensures At(a + seconds * NS_PER_SEC) == At(a).(sec := At(a).sec + seconds)
  {
    assert a == At(a).sec * NS_PER_SEC + At(a).nsec;
    assert b == At(b).sec * NS_PER_SEC + At(b).nsec;
  }

  function After(t: int, seconds: int): int {
    t + seconds * NS_PER_SEC
  }

  function ElapsedMs(start: Timespec, now: Timespec): int {
    (now.sec - start.sec) * 1000 + TruncDiv(now.nsec - start.nsec, NS_PER_MS)
  }

  /** The natural clock: milliseconds since the node started. */
  function Natural(start: int, t: int): (ms: nat)
    requires start <= t
  {
    NaturalReading(start, t);
    ElapsedMs(At(start), At(t))
  }

  /** Largest distance, in nanoseconds, between a reading of the natural clock and the time
      it stands for, when every instant is a multiple of `grain`. */
  function ReadingError(grain: int): (e: int)
    ensures 0 <= e < NS_PER_MS
  {
    if grain % NS_PER_MS == 0 then 0 else NS_PER_MS - 1
  }

  predicate OnGrain(t: int, grain: int)
    requires grain > 0
  {
    t % grain == 0
  }

  /** A reading is never negative and is off by less than a millisecond. */
  lemma NaturalReading(start: int, t: int)
    requires start <= t
    ensures var ms := ElapsedMs(At(start), At(t));
            0 <= ms && -NS_PER_MS < ms * NS_PER_MS - (t - start) < NS_PER_MS
  {
    var dsec, dnsec := At(t).sec - At(start).sec, At(t).nsec - At(start).nsec;
    assert t - start == dsec * NS_PER_SEC + dnsec;
    assert ElapsedMs(At(start), At(t)) * NS_PER_MS == dsec * NS_PER_SEC + TruncDiv(dnsec, NS_PER_MS) * NS_PER_MS;
  }

  lemma MultipleOfMs(t: int, grain: int) returns (ms: int)
    requires grain > 0 && grain % NS_PER_MS == 0 && OnGrain(t, grain)
    ensures t == ms * NS_PER_MS
  {
    var a, b := t / grain, grain / NS_PER_MS;
    assert t == a * grain && grain == b * NS_PER_MS;
    assert t == (a * b) * NS_PER_MS;
    ms := a * b;
  }

  /** The error of one reading, for any grain; on whole milliseconds the clock is exact. */
  lemma NaturalAccuracy(start: int, t: int, grain: int)
    requires start <= t && grain > 0 && OnGrain(start, grain) && OnGrain(t, grain)
    ensures -ReadingError(grain) <= Natural(start, t) * NS_PER_MS - (t - start) <= ReadingError(grain)
  {
    NaturalReading(start, t);
    if grain % NS_PER_MS == 0 {
      var s := MultipleOfMs(start, grain);
      var m := MultipleOfMs(t, grain);
      assert Natural(start, t) == m - s;
    }
  }

  /** Exactly what truncating seconds and nanoseconds separately costs: the clock shows whole
      milliseconds, and one more when a part of a millisecond has passed and the nanoseconds
      of the instant are below those of the start. */
  lemma NaturalExact(start: int, t: int)
    requires start <= t
    ensures var elapsed := t - start;
            var ahead := elapsed % NS_PER_MS != 0 && t % NS_PER_SEC < start % NS_PER_SEC;
            Natural(start, t) == elapsed / NS_PER_MS + if ahead then 1 else 0
  {
    var dsec, dnsec := At(t).sec - At(start).sec, At(t).nsec - At(start).nsec;
    var q := TruncDiv(dnsec, NS_PER_MS);
    var elapsed := t - start;
    assert elapsed == dsec * NS_PER_SEC + dnsec;
    assert elapsed - Natural(start, t) * NS_PER_MS == dnsec - q * NS_PER_MS;
    assert elapsed == (elapsed / NS_PER_MS) * NS_PER_MS + elapsed % NS_PER_MS;
  }

  /** The natural clock never runs backwards, although the two parts of the difference are
      truncated separately. */
  lemma NaturalMonotone(start: int, t: int, u: int)
    requires start <= t <= u
    ensures Natural(start, t) <= Natural(start, u)
  {
    var dt, du := At(t).nsec - At(start).nsec, At(u).nsec - At(start).nsec;
    if At(t).sec == At(u).sec {
      TruncMonotone(dt, du);
    } else {
      assert At(t).sec + 1 <= At(u).sec;
      TruncWrap(dt, du);
    }
  }

  lemma TruncMonotone(a: int, b: int)
    requires a <= b
    ensures TruncDiv(a, NS_PER_MS) <= TruncDiv(b, NS_PER_MS)
  {
  }

  lemma TruncWrap(a: int, b: int)
    requires a - b < NS_PER_SEC
    ensures TruncDiv(a, NS_PER_MS) <= TruncDiv(b, NS_PER_MS) + 1000
  {
  }

  /** The synchronized clock of a node (natural time when the node is not synchronized). */
  function GetClock(level: Byte, offset: int, natural: nat): (clock: nat) {
    if level == UNSYNCHRONIZED then natural
    else if natural >= offset then natural - offset
    else 0
  }

  /** The offset computed from the four timestamps of an exchange. */
  function OffsetOf(T1: int, T2: int, T3: int, T4: int): int {
    TruncDiv(T2 - T1 + T3 - T4, 2)
  }
}
