/** Conversion between nanoseconds and ticks.

    Values are mathematical integers; the lemmas show that for every tick frequency from 1 to 10^9
    no intermediate value leaves the signed 64-bit range, so they are also the machine's values.
 */
module TimeSpan {
  import opened Arithmetic

  const MAX_TIME: int := 0x7fff_ffff_ffff_ffff
  const MIN_TIME: int := -0x8000_0000_0000_0000
  const NANO: int := 1_000_000_000

  predicate S64(x: int) {
    MIN_TIME <= x <= MAX_TIME
  }

  predicate FrequencyOk(f: int) {
    1 <= f <= NANO
  }

  /** Division and remainder of C++: truncated towards zero. */
  function Quot(a: int, b: int): int
    requires 0 < b
  {
    if 0 <= a then a / b else -((-a) / b)
  }

  function Rem(a: int, b: int): int
    requires 0 < b
  {
    if 0 <= a then a % b else -((-a) % b)
  }

  /** The last tick that is converted rather than saturated: as many whole seconds as 64 bits of
      nanoseconds hold, or one less if the largest time leaves too large a remainder by the frequency. */
  function LastTick(f: int): int
    requires FrequencyOk(f)
  {
    if MAX_TIME % f <= 854_775_807 then 9_223_372_036 * f else 9_223_372_035 * f
  }

  /** The limit as `InitializeTimeStamp` computes it. */
  function MaxTick(f: int): (limit: int)
    requires FrequencyOk(f)
    ensures limit == LastTick(f) && 9_223_372_035 * f <= limit <= 9_223_372_036 * f
  {
    WholeSeconds(MAX_TIME % f);
    Quot(MAX_TIME - Rem(MAX_TIME, f), NANO) * f
  }

  lemma WholeSeconds(r: int)
    requires 0 <= r < NANO
    ensures (MAX_TIME - r) / NANO == if r <= 854_775_807 then 9_223_372_036 else 9_223_372_035
  {
  }

  function FromTick(f: int, tick: int): int
    requires FrequencyOk(f)
  {
    if MaxTick(f) < tick then MAX_TIME
    else if tick < -MaxTick(f) then MIN_TIME
    else
      var residual := Quot(Rem(tick, f) * NANO, f);
      var quotient := Quot(tick, f) * NANO;
      residual + quotient
  }

  function GetTick(f: int, ns: int): int
    requires FrequencyOk(f)
  {
    if ns == MIN_TIME then MIN_TIME
    else
      var r := if -1 >= ns then -Rem(ns, NANO) else Rem(ns, NANO);
      var p := if -1 >= ns then -Quot(ns, NANO) else Quot(ns, NANO);
      var residual := Quot(r * f + 999_999_999, NANO);
      var result := residual + p * f;
      if -1 >= result then -result else result
  }

  function GetMilliSeconds(ns: int): int {
    Quot(ns, 1_000_000)
  }

  function GetMillisecondsFromTick(f: int, tick: int): int
    requires FrequencyOk(f)
  {
    Quot(Rem(tick, f) * 1000, f) + Quot(tick, f) * 1000
  }

  /** `q` is the quotient of `a` by `b` rounded down. */
  ghost predicate IsFloor(q: int, a: int, b: int) {
    q * b <= a < q * b + b
  }

  /** `q` is the quotient of `a` by `b` rounded up. */
  ghost predicate IsCeiling(q: int, a: int, b: int) {
    q * b - b < a <= q * b
  }

  lemma FloorUnique(q: int, q': int, a: int, b: int)
    requires 0 < b && IsFloor(q, a, b) && IsFloor(q', a, b)
    ensures q == q'
  {
    MulMono(q + 1, q', b);
    MulMono(q' + 1, q, b);
  }

  lemma CeilingUnique(q: int, q': int, a: int, b: int)
    requires 0 < b && IsCeiling(q, a, b) && IsCeiling(q', a, b)
    ensures q == q'
  {
    MulMono(q + 1, q', b);
    MulMono(q' + 1, q, b);
  }

  lemma FloorMono(q: int, q': int, a: int, a': int, b: int)
    requires 0 < b && IsFloor(q, a, b) && IsFloor(q', a', b) && a <= a'
    ensures q <= q'
  {
    MulMono(q' + 1, q, b);
  }

  lemma DivFloor(a: int, b: int)
    requires 0 < b
    ensures IsFloor(a / b, a, b)
  {
  }

  /** Converting quotient and remainder separately is exact: the split form is the floor of the
      unsplit product. */
  lemma SplitFloor(t: int, f: int, n: int)
    requires 0 <= t && 0 < f && 0 <= n
    ensures IsFloor(t % f * n / f + t / f * n, t * n, f)
  {
    var q, r := t / f, t % f;
    var e := r * n / f;
    DivFloor(r * n, f);
    assert t * n == q * f * n + r * n by { assert t == q * f + r; }
    assert q * f * n == q * n * f;
    assert (e + q * n) * f == e * f + q * n * f;
  }

  lemma SplitCeiling(t: int, d: int, n: int)
    requires 0 <= t && 0 < d && 0 <= n
    ensures IsCeiling((t % d * n + d - 1) / d + t / d * n, t * n, d)
  {
    var q, r := t / d, t % d;
    var e := (r * n + d - 1) / d;
    DivFloor(r * n + d - 1, d);
    assert t * n == q * d * n + r * n by { assert t == q * d + r; }
    assert q * d * n == q * n * d;
    assert (e + q * n) * d == e * d + q * n * d;
  }

  lemma FromTickForm(f: int, t: int)
    requires FrequencyOk(f) && 0 <= t <= MaxTick(f)
    ensures FromTick(f, t) == t % f * NANO / f + t / f * NANO
    ensures 0 <= t % f * NANO / f <= FromTick(f, t)
  {
    NonNegQuotient(t, f);
    NonNegQuotient(t % f * NANO, f);
  }

  /** Inside the limit `FromTick` is the floor of `tick * 10^9 / f`. */
  lemma FromTickFloor(f: int, t: int)
    requires FrequencyOk(f) && 0 <= t <= LastTick(f)
    ensures IsFloor(FromTick(f, t), t * NANO, f) && 0 <= FromTick(f, t)
  {
    FromTickForm(f, t);
    hide FromTick;
    SplitFloor(t, f, NANO);
  }

  lemma NonNegQuotient(a: int, b: int)
    requires 0 <= a && 0 < b
    ensures 0 <= a / b
  {
    DivFloor(a, b);
    MulMono(a / b + 1, 0, b);
  }

  lemma CeilingBound(g: int, ns: int, f: int)
    requires FrequencyOk(f) && 0 <= ns && IsCeiling(g, ns * f, NANO)
    ensures 0 <= g <= ns
  {
    MulMono(0, ns, f);
    MulMono(f, NANO, ns);
  }

  lemma GetTickForm(f: int, ns: int)
    requires FrequencyOk(f) && 0 <= ns
    ensures GetTick(f, ns) == (ns % NANO * f + NANO - 1) / NANO + ns / NANO * f
  {
    MulMono(0, ns % NANO, f);
    MulMono(0, ns / NANO, f);
  }

  /** For every non-negative span `GetTick` is the ceiling of `ns * f / 10^9`. */
  lemma GetTickCeiling(f: int, ns: int)
    requires FrequencyOk(f) && 0 <= ns
    ensures IsCeiling(GetTick(f, ns), ns * f, NANO) && 0 <= GetTick(f, ns) <= ns
  {
    SplitCeiling(ns, NANO, f);
    GetTickForm(f, ns);
    hide GetTick, IsCeiling;
    CeilingBound(GetTick(f, ns), ns, f);
  }

  /** Ticks survive the trip through nanoseconds. */
  lemma TickRoundTrip(f: int, t: int)
    requires FrequencyOk(f) && 0 <= t <= LastTick(f)
    ensures GetTick(f, FromTick(f, t)) == t
  {
    FromTickFloor(f, t);
    var x := FromTick(f, t);
    GetTickCeiling(f, x);
    hide FromTick, GetTick, MaxTick;
    CeilingUnique(GetTick(f, x), t, x * f, NANO);
  }

  lemma CeilingThenFloor(ns: int, n: int, x: int, f: int)
    requires 0 < f && IsCeiling(n, ns * f, NANO) && IsFloor(x, n * NANO, f)
    ensures ns <= x && (x - ns) * f < NANO
  {
    var a, b := ns * f, x * f;
    assert a < b + f;
    assert (x + 1) * f == b + f;
    MulMono(x + 1, ns, f);
    assert (x - ns) * f == b - a;
  }

  /** The trip of a span through ticks rounds it up by less than one tick period. */
  lemma SpanRoundTrip(f: int, ns: int)
    requires FrequencyOk(f) && 0 <= ns && GetTick(f, ns) <= LastTick(f)
    ensures var back := FromTick(f, GetTick(f, ns)); ns <= back && (back - ns) * f < NANO
  {
    GetTickCeiling(f, ns);
    FromTickFloor(f, GetTick(f, ns));
    hide FromTick, GetTick, MaxTick, IsFloor, IsCeiling;
    CeilingThenFloor(ns, GetTick(f, ns), FromTick(f, GetTick(f, ns)), f);
  }

  /** The limit is a whole number of seconds whose nanoseconds fit. */
  lemma MaxTickFacts(f: int) returns (seconds: int)
    requires FrequencyOk(f)
    ensures MaxTick(f) == seconds * f && 0 <= seconds && 0 <= MaxTick(f) <= MAX_TIME && seconds * NANO <= MAX_TIME
    ensures S64(MAX_TIME - Rem(MAX_TIME, f)) && S64(-MaxTick(f))
  {
    var whole := MAX_TIME - MAX_TIME % f;
    seconds := whole / NANO;
    assert 0 <= whole <= MAX_TIME;
    MulMono(f, NANO, seconds);
    assert seconds * f <= seconds * NANO;
  }

  /** No intermediate of `FromTick` leaves the signed 64-bit range, whatever the tick. */
  lemma FromTickNoOverflow(f: int, tick: int)
    requires FrequencyOk(f) && S64(tick)
    ensures S64(FromTick(f, tick))
    ensures -LastTick(f) <= tick <= LastTick(f) ==>
              S64(Rem(tick, f) * NANO) && S64(Quot(tick, f) * NANO) && S64(Quot(Rem(tick, f) * NANO, f))
  {
    if -MaxTick(f) <= tick <= MaxTick(f) {
      var t := if 0 <= tick then tick else -tick;
      FromTickBound(f, t);
      FromTickOdd(f, t);
    }
  }

  lemma SecondsBound(t: int, seconds: int, f: int, x: int)
    requires 0 < f && 0 <= t <= seconds * f && IsFloor(x, t * NANO, f)
    ensures 0 <= t / f <= seconds && x <= seconds * NANO
  {
    DivFloor(t, f);
    MulMono(seconds + 1, t / f, f);
    NonNegQuotient(t, f);
    var whole := seconds * NANO;
    assert t * NANO <= whole * f by { assert seconds * f * NANO == whole * f; }
    MulMono(whole + 1, x, f);
  }

  lemma FromTickBound(f: int, t: int)
    requires FrequencyOk(f) && 0 <= t <= MaxTick(f)
    ensures 0 <= t % f * NANO <= MAX_TIME && 0 <= t / f * NANO <= MAX_TIME && 0 <= t % f * NANO / f <= MAX_TIME
    ensures 0 <= FromTick(f, t) <= MAX_TIME
  {
    var seconds := MaxTickFacts(f);
    FromTickForm(f, t);
    FromTickFloor(f, t);
    hide FromTick, MaxTick, IsFloor;
    SecondsBound(t, seconds, f, FromTick(f, t));
  }

  lemma FromTickOdd(f: int, t: int)
    requires FrequencyOk(f) && 0 <= t <= MaxTick(f)
    ensures FromTick(f, -t) == -FromTick(f, t)
  {
    FromTickForm(f, t);
    TruncatesOdd(t, f);
    TruncatesOdd(Rem(t, f) * NANO, f);
    hide Quot, Rem, MaxTick;
    assert Rem(-t, f) * NANO == -(Rem(t, f) * NANO);
  }

  /** For a non-negative span no intermediate of `GetTick` leaves the signed 64-bit range. */
  lemma GetTickNoOverflow(f: int, ns: int)
    requires FrequencyOk(f) && 0 <= ns <= MAX_TIME
    ensures S64(Rem(ns, NANO) * f + 999_999_999) && S64(Quot(ns, NANO) * f) && S64(GetTick(f, ns))
  {
    GetTickCeiling(f, ns);
    hide GetTick, IsCeiling;
    MulMono(f, NANO, ns % NANO);
    MulMono(0, ns % NANO, f);
    MulMono(f, NANO, ns / NANO);
    MulMono(0, ns / NANO, f);
  }

  lemma FromTickMonoInside(f: int, t: int, u: int)
    requires FrequencyOk(f) && 0 <= t <= u <= MaxTick(f)
    ensures FromTick(f, t) <= FromTick(f, u)
  {
    FromTickFloor(f, t);
    FromTickFloor(f, u);
    hide FromTick, MaxTick, IsFloor;
    FloorMono(FromTick(f, t), FromTick(f, u), t * NANO, u * NANO, f);
  }

  /** Beyond the limit, on either side, the largest and the smallest time are returned; a negative tick
      within the limit gives the negative of its opposite. */
  lemma FromTickEnds(f: int, t: int)
    requires FrequencyOk(f)
    ensures LastTick(f) < t ==> FromTick(f, t) == MAX_TIME && FromTick(f, -t) == MIN_TIME
    ensures 0 <= t <= LastTick(f) ==> FromTick(f, -t) == -FromTick(f, t)
  {
    if 0 <= t <= LastTick(f) { FromTickOdd(f, t); }
  }

  /** `FromTick` is monotone over all ticks, the saturated ends included. */
  lemma FromTickMonotone(f: int, t: int, u: int)
    requires FrequencyOk(f) && S64(t) && S64(u) && t <= u
    ensures FromTick(f, t) <= FromTick(f, u)
  {
    FromTickNoOverflow(f, t);
    FromTickNoOverflow(f, u);
    var m := MaxTick(f);
    if -m <= t && u <= m {
      if t < 0 { FromTickOdd(f, -t); FromTickBound(f, -t); }
      if u < 0 { FromTickOdd(f, -u); FromTickMonoInside(f, -u, -t); } else { FromTickBound(f, u); }
      if 0 <= t { FromTickMonoInside(f, t, u); }
    }
  }

  lemma FloorOfFloor(x: int, t: int, f: int)
    requires 0 < f && IsFloor(x, t * NANO, f)
    ensures IsFloor(x / 1_000_000, t * 1000, f)
  {
    var m := x / 1_000_000;
    MulMono(m * 1_000_000, x, f);
    MulMono(x + 1, (m + 1) * 1_000_000, f);
    assert m * 1_000_000 * f == m * f * 1_000_000;
    assert (m + 1) * 1_000_000 * f == (m * f + f) * 1_000_000;
  }

  /** The two ways to milliseconds agree inside the limit. */
  lemma MillisecondsAgree(f: int, t: int)
    requires FrequencyOk(f) && 0 <= t <= LastTick(f)
    ensures GetMilliSeconds(FromTick(f, t)) == GetMillisecondsFromTick(f, t)
  {
    FromTickFloor(f, t);
    hide FromTick, MaxTick, IsFloor;
    FloorOfFloor(FromTick(f, t), t, f);
    SplitFloor(t, f, 1000);
    FloorUnique(FromTick(f, t) / 1_000_000, t % f * 1000 / f + t / f * 1000, t * 1000, f);
    assert 0 <= t % f * 1000;
  }

  /** Milliseconds are the floor of the exact quotient, of a span and of a tick, and negative ones are
      rounded towards zero. */
  lemma MillisecondsFloor(f: int, t: int, ns: int)
    requires FrequencyOk(f) && 0 <= t && 0 <= ns
    ensures IsFloor(GetMillisecondsFromTick(f, t), t * 1000, f) && IsFloor(GetMilliSeconds(ns), ns, 1_000_000)
    ensures GetMillisecondsFromTick(f, -t) == -GetMillisecondsFromTick(f, t)
    ensures GetMilliSeconds(-ns) == -GetMilliSeconds(ns)
  {
    SplitFloor(t, f, 1000);
    assert 0 <= t % f * 1000;
    DivFloor(ns, 1_000_000);
    TruncatesOdd(ns, 1_000_000);
    TruncatesOdd(t, f);
    TruncatesOdd(Rem(t, f) * 1000, f);
    MillisecondsForm(f, t);
    hide Quot, Rem;
    assert Rem(-t, f) * 1000 == -(Rem(t, f) * 1000);
  }

  lemma TruncatesOdd(a: int, b: int)
    requires 0 < b
    ensures Quot(-a, b) == -Quot(a, b) && Rem(-a, b) == -Rem(a, b)
  {
    if a == 0 { assert 0 / b == 0 && 0 % b == 0 by { DivFloor(0, b); } }
  }

  lemma MillisecondsForm(f: int, t: int)
    requires FrequencyOk(f) && 0 <= t
    ensures GetMillisecondsFromTick(f, t) == t % f * 1000 / f + t / f * 1000
  {
    assert 0 <= t % f * 1000;
  }

  /** Two's complement wrap-around to signed and to unsigned 64 bits. */
  function Wrap(x: int): int {
    (x + 0x8000_0000_0000_0000) % 0x1_0000_0000_0000_0000 - 0x8000_0000_0000_0000
  }

  function ToU64(x: int): nat {
    x % 0x1_0000_0000_0000_0000
  }

  /** The absolute tick, as the scheduler stores it, at which a timeout of so many ticks ends. */
  function Deadline(timeout: int, now: int): nat {
    if 0 >= timeout then ToU64(MAX_TIME)
    else
      var absolute := Wrap(timeout + now);
      if Wrap(absolute + 1) <= 1 then ToU64(MAX_TIME) else ToU64(Wrap(absolute + 2))
  }

  function WakeupTick(f: int, ns: int, now: int): nat
    requires FrequencyOk(f)
  {
    Deadline(GetTick(f, ns), now)
  }

  lemma WrapValue(x: int)
    requires 0 <= x <= 2 * MAX_TIME + 1
    ensures Wrap(x) == if x <= MAX_TIME then x else x - 0x1_0000_0000_0000_0000
    ensures ToU64(Wrap(x)) == x
  {
  }

  /** A zero or negative timeout never ends. */
  lemma DeadlineForever(timeout: int, now: int)
    ensures timeout <= 0 ==> Deadline(timeout, now) == MAX_TIME
  {
  }

  /** The deadline is the timeout plus the clock plus 2, or the largest time where that would not fit. */
  lemma DeadlineValue(timeout: int, now: int)
    requires 0 < timeout <= MAX_TIME && 0 <= now <= MAX_TIME
    ensures Deadline(timeout, now) == if timeout + now < MAX_TIME then timeout + now + 2 else MAX_TIME
  {
    var absolute := timeout + now;
    WrapValue(absolute);
    if absolute <= MAX_TIME {
      WrapValue(absolute + 1);
      WrapValue(absolute + 2);
    }
  }

  /** The wake-up tick: the whole ticks that cover the span, after the clock, plus 2; the largest time where
      that would not fit, and for a zero span. */
  lemma WakeupValue(f: int, ns: int, now: int, ticks: int)
    requires FrequencyOk(f) && 0 <= ns <= MAX_TIME && 0 <= now <= MAX_TIME && IsCeiling(ticks, ns * f, NANO)
    ensures WakeupTick(f, ns, now) == if 0 < ns && ticks + now < MAX_TIME then ticks + now + 2 else MAX_TIME
  {
    GetTickCeiling(f, ns);
    hide GetTick, Deadline;
    CeilingUnique(GetTick(f, ns), ticks, ns * f, NANO);
    if ns == 0 {
      assert ticks == 0;
      DeadlineForever(0, now);
    } else {
      assert 0 < ticks by { assert 0 < ns * f; }
      DeadlineValue(ticks, now);
    }
  }

  lemma SpanElapsed(f: int, ns: int, elapsed: int)
    requires FrequencyOk(f) && 0 < ns <= MAX_TIME && GetTick(f, ns) <= elapsed <= MAX_TIME
    ensures ns <= FromTick(f, elapsed)
  {
    GetTickCeiling(f, ns);
    if GetTick(f, ns) <= MaxTick(f) {
      SpanRoundTrip(f, ns);
      FromTickMonotone(f, GetTick(f, ns), elapsed);
    }
  }

  /** A deadline passes only when the ticks elapsed since the call amount to the whole duration; this
      covers the cases where the sum wraps or saturates.  A deadline is never 0, which the scheduler
      would take for a yield. */
  lemma DeadlineNotEarly(f: int, ns: int, now: int, tick: int)
    requires FrequencyOk(f) && 0 < ns <= MAX_TIME && 0 <= now <= MAX_TIME && 0 <= tick <= MAX_TIME
    ensures 0 < WakeupTick(f, ns, now)
    ensures WakeupTick(f, ns, now) < tick ==> now < tick && ns <= FromTick(f, tick - now)
  {
    GetTickCeiling(f, ns);
    hide FromTick, GetTick, MaxTick, Deadline;
    var n := GetTick(f, ns);
    assert 0 < n by { assert 0 < ns * f; }
    DeadlineValue(n, now);
    if WakeupTick(f, ns, now) < tick {
      SpanElapsed(f, ns, tick - now);
    }
  }
}
