/** Small shared vocabulary: optional values, real-number helpers that mirror
    Python's built-ins, minute-based timestamps and the peak/drawdown rule that
    both the backtest ledger and the risk gate apply. */
module Common {

  datatype Option<T> = None | Some(value: T)

  function Abs(x: real): (r: real)
    ensures r >= 0.0 && (r == x || r == -x)
  {
    if x < 0.0 then -x else x
  }

  function Max(a: real, b: real): (r: real)
    ensures r >= a && r >= b && (r == a || r == b)
  {
    if b > a then b else a
  }

  function Min(a: real, b: real): (r: real)
    ensures r <= a && r <= b && (r == a || r == b)
  {
    if b < a then b else a
  }

  /** Python's int() applied to a float: truncation toward zero. */
  function Trunc(x: real): (r: int)
    ensures x >= 0.0 ==> r >= 0 && r as real <= x < r as real + 1.0
    ensures x < 0.0 ==> r <= 0 && r as real - 1.0 < x <= r as real
  {
    if x >= 0.0 then x.Floor else -((-x).Floor)
  }

  /** Truncating a non-negative quotient by a positive divisor gives the
      whole number of divisor-sized units that fit. */
  lemma DivTruncBounds(x: real, p: real)
    requires x >= 0.0 && p > 0.0
    ensures Trunc(x / p) as real * p <= x < (Trunc(x / p) + 1) as real * p
    ensures x < p ==> Trunc(x / p) == 0
  {
    var q := x / p;
    assert q * p == x;
    assert q >= 0.0 by {
      if q < 0.0 { MulStrictMonotone(q, 0.0, p); }
    }
    var n := Trunc(q) as real;
    assert n <= q < n + 1.0;
    MulMonotone(n, q, p);
    MulStrictMonotone(q, n + 1.0, p);
    var m := (Trunc(q) + 1) as real;
    assert m == n + 1.0;
    assert x < m * p;
    if x < p && Trunc(q) >= 1 {
      MulMonotone(1.0, n, p);
    }
  }

  /** For a negative quotient, truncation rounds up toward zero: the
      result is the negative whole number of units, rounded toward zero,
      and zero when less than one unit is owed. */
  lemma DivTruncBoundsNegative(x: real, p: real)
    requires x < 0.0 && p > 0.0
    ensures (Trunc(x / p) - 1) as real * p < x <= Trunc(x / p) as real * p
    ensures Trunc(x / p) <= 0
    ensures x > -p <==> Trunc(x / p) == 0
  {
    DivTruncBounds(-x, p);
    var m := Trunc(-x / p);
    assert x / p == -(-x / p);
    assert -x / p >= 0.0;
    assert Trunc(x / p) == -m;
    assert (-m - 1) as real * p == -((m + 1) as real * p);
    assert (-m) as real * p == -(m as real * p);
    if m >= 1 {
      MulMonotone(1.0, m as real, p);
    }
  }

  lemma MulMonotone(a: real, b: real, p: real)
    requires a <= b && p > 0.0
    ensures a * p <= b * p
  {
  }

  lemma MulStrictMonotone(a: real, b: real, p: real)
    requires a < b && p > 0.0
    ensures a * p < b * p
  {
  }

  /** Timestamps are whole minutes, already expressed in the market's local
      (US/Eastern) time, so a calendar day is a block of 1440 minutes. */
  const MinutesPerDay: int := 1440

  function Day(ts: int): int
  {
    ts / MinutesPerDay
  }

  function MinuteOfDay(ts: int): (m: int)
    ensures 0 <= m < MinutesPerDay
    ensures ts == Day(ts) * MinutesPerDay + m
  {
    ts % MinutesPerDay
  }

  /** The whole days of a time difference, rounded down like Python's
      timedelta.days (so a difference of -1 minute is -1 day). */
  function DaysBetween(from: int, to: int): (d: int)
    ensures d * MinutesPerDay <= to - from < (d + 1) * MinutesPerDay
  {
    (to - from) / MinutesPerDay
  }

  /** The drawdown rule shared by the ledger and the risk gate: a new high
      becomes the peak and resets the drawdown to zero; otherwise the drawdown
      is the percentage fall from the peak. Dividing by a zero peak raises in
      the source, so a zero peak needs a new high. Returns (peak', drawdown). */
  function PeakAndDrawdown(peak: real, equity: real): (r: (real, real))
    requires equity > peak || peak != 0.0
    ensures r.0 == Max(peak, equity)
    ensures equity > peak ==> r.0 == equity && r.1 == 0.0
    ensures equity <= peak ==> r.0 == peak && r.1 * peak == (peak - equity) * 100.0
    ensures r.0 > 0.0 ==> r.1 >= 0.0
  {
    if equity > peak then (equity, 0.0)
    else (peak, (peak - equity) / peak * 100.0)
  }
}
