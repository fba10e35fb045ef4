/** Time arithmetic of the pipeline: seconds as reals, pandas timedeltas as
    integer nanoseconds, and Python's truncating `int()` conversion. */
module Times {

  const NanosPerSecond: int := 1_000_000_000

  /** `np.int(x)` / `int(x)`: drops the fractional part, rounding toward zero. */
  function Trunc(x: real): (r: int)
    ensures 0.0 <= x ==> r as real <= x < r as real + 1.0
    ensures x < 0.0 ==> r as real - 1.0 < x <= r as real
  {
    if x >= 0.0 then x.Floor else -((-x).Floor)
  }

  /** `Timedelta.total_seconds()` of a timedelta held as integer nanoseconds. */
  function Seconds(ns: int): real {
    ns as real / NanosPerSecond as real
  }

  /** `pd.to_timedelta(x, unit='s')`: seconds to the nearest nanosecond. */
  function ToNanos(seconds: real): int {
    (seconds * NanosPerSecond as real + 0.5).Floor
  }

  /** A timedelta converted to seconds and back is the same timedelta. */
  lemma NanosRoundTrip(ns: int)
    ensures ToNanos(Seconds(ns)) == ns
  {
    assert Seconds(ns) * NanosPerSecond as real == ns as real;
  }

  /** Converting seconds to a timedelta moves the value by at most half a nanosecond. */
  lemma ToNanosClose(seconds: real)
    ensures seconds - 0.5 / NanosPerSecond as real < Seconds(ToNanos(seconds))
    ensures Seconds(ToNanos(seconds)) <= seconds + 0.5 / NanosPerSecond as real
  {
    var x := seconds * NanosPerSecond as real + 0.5;
    assert x - 1.0 < x.Floor as real <= x;
  }

  /** Converting a timedelta does not change its sign. */
  lemma ToNanosNonNegative(seconds: real)
    requires seconds >= 0.0
    ensures ToNanos(seconds) >= 0
  {
  }

  /** For non-negative operands, `int(a / b)` is integer division. */
  lemma TruncDivision(a: int, b: int)
    requires a >= 0 && b > 0
    ensures Trunc(a as real / b as real) == a / b
  {
    var q, r := a / b, a % b;
    assert a == q * b + r;
    assert a as real == q as real * b as real + r as real;
    assert a as real / b as real == q as real + r as real / b as real;
    assert 0.0 <= r as real / b as real < 1.0;
  }
}
