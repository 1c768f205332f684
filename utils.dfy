/**
 * `Utils.getRandomNumber` and the `||` defaulting idiom every constructor
 * uses. `Math.random()` is not modelled: each call site passes the draw `r`
 * it would have returned, a real in [0, 1).
 */
module Utils {
  import opened Wrappers
  import opened Reals

  /** A value `Math.random()` can return. */
  predicate IsDraw(r: real) {
    0.0 <= r < 1.0
  }

  /**
   * `getRandomNumber(low, high, flt)`: `r * (high - (low - 1)) + low`, floored
   * before adding `low` unless `flt` is set.
   */
  function RandomNumber(low: real, high: real, flt: bool, r: real): real {
    if flt then Mul(r, high - (low - 1.0)) + low
    else Mul(r, high - (low - 1.0)).Floor as real + low
  }

  /**
   * With integer bounds `low <= high` the integer form returns an integer in
   * [low, high].
   */
  lemma RandomIntegerInRange(low: int, high: int, r: real)
    requires low <= high && IsDraw(r)
    ensures var n := RandomNumber(low as real, high as real, false, r);
      n.Floor as real == n && low as real <= n <= high as real
  {
    var span := (high - low + 1) as real;
    assert high as real - (low as real - 1.0) == span;
    var m := Mul(r, span);
    DrawScaled(r, span);
    var k := m.Floor;
    assert 0 <= k < high - low + 1;
    assert RandomNumber(low as real, high as real, false, r) == (k + low) as real;
  }

  /** A draw scaled by a positive span stays in [0, span). */
  lemma DrawScaled(r: real, span: real)
    requires IsDraw(r) && span > 0.0
    ensures 0.0 <= Mul(r, span) < span
  {
    MulSplit(r, 1.0 - r, span);
    assert Mul(1.0 - r, span) > 0.0;
  }

  /** Every integer in [low, high] is the result of some draw. */
  lemma RandomIntegerReachable(low: int, high: int, n: int)
    requires low <= n <= high
    ensures var r := (n - low) as real / (high - low + 1) as real;
      IsDraw(r) && RandomNumber(low as real, high as real, false, r) == n as real
  {
    var span := (high - low + 1) as real;
    var d := (n - low) as real;
    var r := d / span;
    assert Mul(r, span) == d;
    assert high as real - (low as real - 1.0) == span;
    assert 0.0 <= r;
    assert r < 1.0 by {
      if r >= 1.0 {
        MulSplit(r - 1.0, 1.0, span);
      }
    }
    assert d.Floor as real == d;
    assert RandomNumber(low as real, high as real, false, r) == d + low as real;
  }

  /**
   * The floating form with `low <= high` returns a value in
   * [low, high + 1): it can exceed `high`.
   */
  lemma RandomFloatRange(low: real, high: real, r: real)
    requires low <= high && IsDraw(r)
    ensures low <= RandomNumber(low, high, true, r) < high + 1.0
  {
    DrawScaled(r, high - low + 1.0);
  }

  /** A draw the floating form turns into a number above `high`. */
  lemma RandomFloatAboveHigh()
    ensures IsDraw(0.75) && RandomNumber(0.0, 1.0, true, 0.75) == 1.5
  {
  }

  /**
   * What a floating random number in [low, high] evidently should be:
   * `r * (high - low) + low`, which stays in [low, high], below `high`
   * unless the range is a single point.
   */
  function RandomFloat(low: real, high: real, r: real): (n: real)
    requires low <= high && IsDraw(r)
    ensures low <= n <= high
    ensures low < high ==> n < high
  {
    MulSplit(r, 1.0 - r, high - low);
    Mul(r, high - low) + low
  }

  /**
   * JavaScript `value || fallback` for a number that may be undefined: both
   * an absent value and 0 are falsy and give the fallback.
   */
  function Or(value: Option<real>, fallback: real): (r: real)
    ensures value.Some? && value.value != 0.0 ==> r == value.value
    ensures value.None? || value.value == 0.0 ==> r == fallback
  {
    if value.Some? && value.value != 0.0 then value.value else fallback
  }

  /** `value || fallback` for a string: the empty string is falsy too. */
  function OrString(value: Option<string>, fallback: string): (r: string)
    ensures value.Some? && value.value != "" ==> r == value.value
    ensures value.None? || value.value == "" ==> r == fallback
  {
    if value.Some? && value.value != "" then value.value else fallback
  }

  /**
   * `value || fallback` for an object, which is truthy whenever it is
   * present; equally `value === undefined ? fallback : value` for any value,
   * so a flag given as false is kept.
   */
  function OrElse<T>(value: Option<T>, fallback: T): (r: T)
    ensures value.Some? ==> r == value.value
    ensures value.None? ==> r == fallback
  {
    if value.Some? then value.value else fallback
  }

  /**
   * On a number `value || fallback` and `value === undefined ? fallback : value`
   * part only on an option given as 0: that is why `init` writes the two
   * flags with `=== undefined`, which keeps a flag given as false.
   */
  lemma NumberDefaultIdioms(value: Option<real>, fallback: real)
    ensures Or(value, fallback) == OrElse(value, fallback) <==> value != Some(0.0) || fallback == 0.0
  {
  }

  /** On a string the two idioms part only on an option given as the empty string. */
  lemma StringDefaultIdioms(value: Option<string>, fallback: string)
    ensures OrString(value, fallback) == OrElse(value, fallback) <==> value != Some("") || fallback == ""
  {
  }

  /** Defaulting a defaulted number again with the same fallback changes nothing. */
  lemma OrIdempotent(value: Option<real>, fallback: real)
    ensures Or(Some(Or(value, fallback)), fallback) == Or(value, fallback)
  {
  }

  /** A value a fallback with `||` can never produce is 0, as long as the fallback is not 0. */
  lemma OrNonZero(value: Option<real>, fallback: real)
    requires fallback != 0.0
    ensures Or(value, fallback) != 0.0
  {
  }

  /** The digit character for 0..9. */
  function DigitChar(d: nat): char
    requires d < 10
  {
    "0123456789"[d]
  }

  /** A whole number as JavaScript's `+` writes it into a string: decimal, no leading zeros. */
  function Decimal(n: nat): (s: string)
    ensures 1 <= |s|
    ensures s[|s| - 1] == DigitChar(n % 10)
    decreases n
  {
    if n < 10 then [DigitChar(n)] else Decimal(n / 10) + [DigitChar(n % 10)]
  }

  /** Different numbers are written differently. */
  lemma {:induction false} DecimalInjective(a: nat, b: nat)
    requires Decimal(a) == Decimal(b)
    ensures a == b
    decreases a
  {
    var s := Decimal(a);
    assert DigitChar(a % 10) == DigitChar(b % 10);
    if a < 10 && b < 10 {
    } else if a < 10 || b < 10 {
      assert false;
    } else {
      assert Decimal(a / 10) == s[..|s| - 1] == Decimal(b / 10);
      DecimalInjective(a / 10, b / 10);
    }
  }
}
