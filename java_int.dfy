/**
 * Java's 32-bit `int`: its range, the wrap-around of `+`, and the decimal
 * parser `Integer.parseInt` / `Integer.valueOf(String)` together with its
 * inverse `Integer.toString`.
 */
module JavaInt {
  import opened Wrappers

  const TwoTo31: int := 0x8000_0000
  const TwoTo32: int := 0x1_0000_0000

  /** The values of a Java `int`. */
  predicate IsInt32(x: int) {
    -TwoTo31 <= x < TwoTo31
  }

  /** The `int` that Java's two's-complement arithmetic leaves for the mathematical value `x`. */
  function Wrap32(x: int): (r: int)
    ensures IsInt32(r)
    ensures IsInt32(x) ==> r == x
  {
    (x + TwoTo31) % TwoTo32 - TwoTo31
  }

  /**
   * Adding to a wrapped accumulator and wrapping again is the same as wrapping
   * the exact sum: a loop `acc = acc + v` over `int` computes the exact sum
   * modulo 2^32.
   */
  lemma WrapAdd(a: int, b: int)
    ensures Wrap32(Wrap32(a) + b) == Wrap32(a + b)
  {
  }

  predicate IsDigit(c: char) {
    '0' <= c <= '9'
  }

  predicate AllDigits(s: string) {
    forall i :: 0 <= i < |s| ==> IsDigit(s[i])
  }

  function DigitValue(c: char): (d: nat)
    requires IsDigit(c)
    ensures d < 10
  {
    (c as int) - ('0' as int)
  }

  function DigitChar(d: nat): (c: char)
    requires d < 10
    ensures IsDigit(c) && DigitValue(c) == d
  {
    (('0' as int) + d) as char
  }

  /** The value of a string of decimal digits, most significant first. */
  function DigitsValue(s: string): nat
    requires AllDigits(s)
  {
    if |s| == 0 then 0 else DigitsValue(s[..|s| - 1]) * 10 + DigitValue(s[|s| - 1])
  }

  /**
   * The shape `Integer.parseInt` accepts: an optional `-` or `+` followed by at
   * least one decimal digit, and nothing else (no blanks, no other characters).
   */
  predicate IsDecimalLiteral(s: string) {
    && |s| >= 1
    && (IsDigit(s[0]) || ((s[0] == '-' || s[0] == '+') && |s| >= 2))
    && forall i :: 1 <= i < |s| ==> IsDigit(s[i])
  }

  /**
   * `Integer.parseInt(s)`: `None` stands for the NumberFormatException thrown on
   * a null argument, an empty string, a lone sign, any non-digit, or a value
   * outside the `int` range.
   */
  function ParseInt(s: Option<string>): (r: Option<int>)
    ensures r.Some? ==> s.Some? && IsDecimalLiteral(s.value) && IsInt32(r.value)
    ensures s.Some? && !IsDecimalLiteral(s.value) ==> r.None?
  {
    match s
    case None => None
    case Some(text) =>
      var negative := |text| > 0 && text[0] == '-';
      var digits := if |text| > 0 && (text[0] == '-' || text[0] == '+') then text[1..] else text;
      if |digits| == 0 || !AllDigits(digits) then None
      else
        var magnitude := DigitsValue(digits);
        var v: int := if negative then -(magnitude as int) else magnitude;
        if IsInt32(v) then Some(v) else None
  }

  /** Decimal digits of `n` without leading zeros, as `Integer.toString` writes them. */
  function DecimalDigits(n: nat): (s: string)
    ensures |s| >= 1 && AllDigits(s)
  {
    if n < 10 then [DigitChar(n)] else DecimalDigits(n / 10) + [DigitChar(n % 10)]
  }

  /** `Integer.toString(n)`, extended to every integer. */
  function Show(n: int): (s: string)
  {
    if n < 0 then "-" + DecimalDigits(-n) else DecimalDigits(n)
  }

  lemma {:induction false} DecimalDigitsValue(n: nat)
    ensures DigitsValue(DecimalDigits(n)) == n
  {
    var s := DecimalDigits(n);
    if n >= 10 {
      DecimalDigitsValue(n / 10);
      assert s[..|s| - 1] == DecimalDigits(n / 10);
    }
  }

  /**
   * Round trip: parsing what `Integer.toString` wrote gives the number back
   * exactly when it is an `int`, and fails with NumberFormatException otherwise.
   */
  lemma ParseShow(n: int)
    ensures ParseInt(Some(Show(n))) == if IsInt32(n) then Some(n) else None
  {
    var text := Show(n);
    if n < 0 {
      assert text[1..] == DecimalDigits(-n);
      DecimalDigitsValue(-n);
    } else {
      DecimalDigitsValue(n);
    }
  }

  /** A leading `+` is accepted and means the same as no sign. */
  lemma ParsePlusSign(n: nat)
    ensures ParseInt(Some("+" + DecimalDigits(n))) == if n < TwoTo31 then Some(n) else None
  {
    assert ("+" + DecimalDigits(n))[1..] == DecimalDigits(n);
    DecimalDigitsValue(n);
  }
}
