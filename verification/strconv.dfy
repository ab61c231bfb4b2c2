/** Base-10 integer parsing as done by Go's `strconv` package, which the
    controllers use for query parameters (`Atoi`) and path IDs
    (`ParseUint(s, 10, 32)`). Each parser returns Go's `(value, error)` pair;
    the value is kept on failure too, because one caller reads it anyway. */
module Strconv {
  import opened Wrappers

  const MaxUint32: nat := 0xFFFF_FFFF
  const MaxUint64: nat := 0xFFFF_FFFF_FFFF_FFFF
  const MaxInt64: int := 0x7FFF_FFFF_FFFF_FFFF
  const MinInt64: int := -0x8000_0000_0000_0000

  predicate IsDigit(c: char) {
    '0' <= c <= '9'
  }

  function DigitValue(c: char): (d: nat)
    requires IsDigit(c)
    ensures d < 10
  {
    c as int - '0' as int
  }

  predicate AllDigits(s: string) {
    forall i | 0 <= i < |s| :: IsDigit(s[i])
  }

  function Pow10(k: nat): (p: nat)
    ensures p >= 1
  {
    if k == 0 then 1 else 10 * Pow10(k - 1)
  }

  /** The number a string of decimal digits denotes, by place value: the
      leading digit counts `10^(|s|-1)` times. */
  function DecimalValue(s: string): nat
    requires AllDigits(s)
  {
    if |s| == 0 then 0 else DigitValue(s[0]) * Pow10(|s| - 1) + DecimalValue(s[1..])
  }

  /** Width of the unsigned result requested from `ParseUint`. */
  datatype BitSize = Bits32 | Bits64 {
    function MaxValue(): nat {
      match this
      case Bits32 => MaxUint32
      case Bits64 => MaxUint64
    }
  }

  datatype NumError = ErrSyntax | ErrRange

  /** Go's `(value, err)`: `err == None` is a nil error. */
  datatype Parsed = Parsed(value: int, err: Option<NumError>)

  /** The digit loop of `ParseUint`: characters are taken left to right into
      the accumulator `n`; a non-digit is a syntax error (value 0), and the
      first prefix whose value exceeds `maxVal` is a range error (value
      `maxVal`), whichever comes first. Go detects the overflow with a
      multiplication cutoff and an unsigned wrap-around test; for base 10 both
      fire exactly when the true value `10 * n + d` exceeds `maxVal`. */
  function Accumulate(s: string, n: nat, maxVal: nat): (r: Parsed)
    requires n <= maxVal
    ensures 0 <= r.value <= maxVal
    ensures r.err == Some(ErrSyntax) ==> r.value == 0
    ensures r.err == Some(ErrRange) ==> r.value == maxVal
    decreases |s|
  {
    if |s| == 0 then Parsed(n, None)
    else if !IsDigit(s[0]) then Parsed(0, Some(ErrSyntax))
    else
      var n1 := 10 * n + DigitValue(s[0]);
      if n1 > maxVal then Parsed(maxVal, Some(ErrRange))
      else Accumulate(s[1..], n1, maxVal)
  }

  lemma Pow10Step(n: nat, d: nat, k: nat)
    ensures (10 * n + d) * Pow10(k) == n * Pow10(k + 1) + d * Pow10(k)
  {
    calc {
      (10 * n + d) * Pow10(k);
      10 * n * Pow10(k) + d * Pow10(k);
      n * (10 * Pow10(k)) + d * Pow10(k);
    }
  }

  /** What the digit loop should end with when started from accumulator `n`. */
  function Shifted(s: string, n: nat): nat
    requires AllDigits(s)
  {
    n * Pow10(|s|) + DecimalValue(s)
  }

  /** Taking one digit into the accumulator does not change the final value. */
  lemma ShiftedStep(s: string, n: nat)
    requires |s| > 0 && AllDigits(s)
    ensures AllDigits(s[1..])
    ensures Shifted(s, n) == Shifted(s[1..], 10 * n + DigitValue(s[0]))
    ensures 10 * n + DigitValue(s[0]) <= Shifted(s, n)
  {
    var t := s[1..];
    var d := DigitValue(s[0]);
    var p := Pow10(|t|);
    assert AllDigits(t) by {
      forall i | 0 <= i < |t| ensures IsDigit(t[i]) {
        assert t[i] == s[i + 1];
      }
    }
    assert Pow10(|s|) == Pow10(|t| + 1);
    assert DecimalValue(s) == d * p + DecimalValue(t);
    Pow10Step(n, d, |t|);
    assert Shifted(t, 10 * n + d) == (10 * n + d) * p + DecimalValue(t);
    MulAtLeast(10 * n + d, p);
  }

  lemma MulAtLeast(a: nat, p: nat)
    requires p >= 1
    ensures a <= a * p
  {
  }

  lemma DigitsOfTail(s: string)
    requires |s| > 0 && IsDigit(s[0]) && AllDigits(s[1..])
    ensures AllDigits(s)
  {
    forall i | 0 <= i < |s| ensures IsDigit(s[i]) {
      if i > 0 { assert s[i] == s[1..][i - 1]; }
    }
  }

  /** The accumulating loop computes the place-value reading of the digits,
      and succeeds exactly when every character is a digit and the whole value
      fits. */
  lemma {:induction false} AccumulateMeaning(s: string, n: nat, maxVal: nat)
    requires n <= maxVal
    ensures Accumulate(s, n, maxVal).err.None?
        <==> AllDigits(s) && Shifted(s, n) <= maxVal
    ensures Accumulate(s, n, maxVal).err.None?
        ==> Accumulate(s, n, maxVal).value == Shifted(s, n)
    decreases |s|
  {
    if |s| == 0 {
    } else if !IsDigit(s[0]) {
    } else {
      var t := s[1..];
      var n1 := 10 * n + DigitValue(s[0]);
      if AllDigits(s) {
        ShiftedStep(s, n);
      } else if AllDigits(t) {
        DigitsOfTail(s);
      }
      if n1 <= maxVal {
        AccumulateMeaning(t, n1, maxVal);
        if AllDigits(t) {
          DigitsOfTail(s);
          ShiftedStep(s, n);
        }
      }
    }
  }

  /** No prefix of `s` can overflow when even all-nines would fit. */
  lemma {:induction false} AccumulateCannotOverflow(s: string, n: nat, maxVal: nat)
    requires n <= maxVal
    requires (n + 1) * Pow10(|s|) <= maxVal + 1
    ensures Accumulate(s, n, maxVal).err != Some(ErrRange)
    decreases |s|
  {
    if |s| > 0 && IsDigit(s[0]) {
      var n1 := 10 * n + DigitValue(s[0]);
      var p := Pow10(|s| - 1);
      assert Pow10(|s|) == 10 * p;
      MulMonotone(n1 + 1, 10 * (n + 1), p);
      MulShift(n + 1, p);
      MulAtLeast(n1 + 1, p);
      AccumulateCannotOverflow(s[1..], n1, maxVal);
    }
  }

  lemma MulMonotone(a: nat, b: nat, p: nat)
    requires a <= b
    ensures a * p <= b * p
  {
  }

  lemma MulShift(a: nat, p: nat)
    ensures (10 * a) * p == a * (10 * p)
  {
  }

  /** A run of digits never meets a syntax error. */
  lemma {:induction false} AccumulateDigits(s: string, n: nat, maxVal: nat)
    requires n <= maxVal
    ensures AllDigits(s) ==> Accumulate(s, n, maxVal).err != Some(ErrSyntax)
    decreases |s|
  {
    if |s| > 0 && IsDigit(s[0]) && 10 * n + DigitValue(s[0]) <= maxVal {
      var t := s[1..];
      assert forall i | 0 <= i < |t| :: t[i] == s[i + 1];
      AccumulateDigits(t, 10 * n + DigitValue(s[0]), maxVal);
    }
  }

  /** `strconv.ParseUint(s, 10, size)`: accepted exactly when `s` is a
      non-empty run of ASCII digits whose value fits in `size` bits. No sign,
      no blank, no underscore is accepted. A run of digits too large for the
      width is a range error with the maximum as value. */
  function ParseUint(s: string, size: BitSize): (r: Parsed)
    ensures r.err.None? <==> |s| > 0 && AllDigits(s) && DecimalValue(s) <= size.MaxValue()
    ensures r.err.None? ==> r.value == DecimalValue(s)
    ensures r.err == Some(ErrSyntax) ==> r.value == 0
    ensures r.err == Some(ErrRange) ==> r.value == size.MaxValue()
    ensures |s| > 0 && AllDigits(s) && DecimalValue(s) > size.MaxValue()
        ==> r == Parsed(size.MaxValue(), Some(ErrRange))
  {
    if |s| == 0 then Parsed(0, Some(ErrSyntax))
    else
      AccumulateMeaning(s, 0, size.MaxValue());
      AccumulateDigits(s, 0, size.MaxValue());
      assert AllDigits(s) ==> Shifted(s, 0) == DecimalValue(s);
      var r := Accumulate(s, 0, size.MaxValue());
      assert AllDigits(s) && DecimalValue(s) > size.MaxValue() ==> r.err.value != ErrSyntax;
      r
  }

  /** `s` with one leading sign character removed, if it has one. */
  function Magnitude(s: string): string {
    if |s| > 0 && (s[0] == '+' || s[0] == '-') then s[1..] else s
  }

  /** Optional sign, then at least one decimal digit. */
  predicate IsDecimalInt(s: string) {
    |s| > 0 && |Magnitude(s)| > 0 && AllDigits(Magnitude(s))
  }

  function SignedValue(s: string): int
    requires IsDecimalInt(s)
  {
    var v: int := DecimalValue(Magnitude(s));
    if s[0] == '-' then -v else v
  }

  /** `s` is a decimal integer within the range of `int64`. */
  predicate FitsInt64(s: string) {
    IsDecimalInt(s) && MinInt64 <= SignedValue(s) <= MaxInt64
  }

  /** The `int64` bound an out-of-range `s` is clamped to: the lower one
      after a minus sign, the upper one otherwise. */
  function Int64Bound(s: string): int {
    if |s| > 0 && s[0] == '-' then MinInt64 else MaxInt64
  }

  /** `strconv.Atoi` on a 64-bit platform, which is `ParseInt(s, 10, 64)`
      (its fast path for short strings gives the same answers). A syntax error
      yields 0; an out-of-range number yields the nearest bound of `int64`
      together with a range error, and every well-formed number outside
      `int64` gets exactly that. */
  function Atoi(s: string): (r: Parsed)
    ensures r.err.None? <==> FitsInt64(s)
    ensures r.err.None? ==> r.value == SignedValue(s)
    ensures r.err == Some(ErrSyntax) ==> r.value == 0
    ensures r.err == Some(ErrRange) ==> r.value == Int64Bound(s)
    ensures IsDecimalInt(s) && !FitsInt64(s) ==> r == Parsed(Int64Bound(s), Some(ErrRange))
  {
    if |s| == 0 then Parsed(0, Some(ErrSyntax))
    else
      var neg := s[0] == '-';
      var u := ParseUint(Magnitude(s), Bits64);
      if u.err.Some? && u.err.value != ErrRange then Parsed(0, u.err)
      else if !neg && u.value >= -MinInt64 then Parsed(MaxInt64, Some(ErrRange))
      else if neg && u.value > -MinInt64 then Parsed(MinInt64, Some(ErrRange))
      else Parsed(if neg then -u.value else u.value, None)
  }

  /** For strings of at most 19 characters no digit prefix can overflow 64
      bits, so anything that is not a decimal integer is a plain syntax error
      with value 0. (A longer digit run ahead of a stray character gives a
      range error and a clamped value instead.) */
  lemma AtoiShortNonNumeric(s: string)
    ensures |s| <= 19 && !IsDecimalInt(s) ==> Atoi(s) == Parsed(0, Some(ErrSyntax))
  {
    var m := Magnitude(s);
    if |s| <= 19 && |m| > 0 {
      Pow10Of19();
      Pow10Monotone(|m|, 19);
      AccumulateCannotOverflow(m, 0, MaxUint64);
    }
  }

  lemma Pow10Of19()
    ensures Pow10(19) == 10_000_000_000_000_000_000
  {
    assert Pow10(4) == 10_000;
    assert Pow10(8) == 100_000_000;
    assert Pow10(12) == 1_000_000_000_000;
    assert Pow10(16) == 10_000_000_000_000_000;
  }

  lemma {:induction false} Pow10Monotone(j: nat, k: nat)
    requires j <= k
    ensures Pow10(j) <= Pow10(k)
    decreases k
  {
    if j < k {
      Pow10Monotone(j, k - 1);
    }
  }
}
