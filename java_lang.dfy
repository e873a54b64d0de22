/**
 * The few pieces of the Java platform whose exact behaviour the model relies on:
 * 32-bit `int` arithmetic, integer division, `String.trim()`, `Integer.valueOf(String)`
 * and the decimal `toString` of integers, and the kinds of exception that can escape.
 */
module JavaLang {
  import opened Wrappers

  const INT_MIN: int := -0x8000_0000
  const INT_MAX: int := 0x7fff_ffff
  const TWO_32: int := 0x1_0000_0000

  /** The values of a Java `int` (and of an `Integer` that is not null). */
  type Int32 = x: int | INT_MIN <= x <= INT_MAX

  /** The value a Java `int` expression yields for the mathematical value `x` (two's complement wrap-around). */
  function Wrap32(x: int): (r: Int32)
    ensures INT_MIN <= x <= INT_MAX ==> r == x
    ensures INT_MAX < x <= INT_MAX + TWO_32 ==> r == x - TWO_32
    ensures INT_MIN - TWO_32 <= x < INT_MIN ==> r == x + TWO_32
  {
    (x - INT_MIN) % TWO_32 + INT_MIN
  }

  function Abs(x: int): nat {
    if x < 0 then -x else x
  }

  /** Java's `/` on integers: the quotient truncated toward zero (Dafny's `/` is Euclidean). */
  function JavaDiv(a: int, b: int): (q: int)
    requires b != 0
    ensures a >= 0 && b > 0 ==> q == a / b
    ensures a < 0 && b > 0 ==> q == -((-a) / b)
  {
    if (a < 0) == (b < 0) then Abs(a) / Abs(b) else -(Abs(a) / Abs(b))
  }

  // ---------------------------------------------------------------------------
  // String.trim(): strips every leading and trailing character <= U+0020.

  predicate IsTrimmable(c: char) {
    c <= ' '
  }

  function TrimStart(s: string): (r: string)
    ensures |r| <= |s| && r == s[|s| - |r|..]
    ensures r != [] ==> !IsTrimmable(r[0])
    ensures forall i :: 0 <= i < |s| - |r| ==> IsTrimmable(s[i])
  {
    if s != [] && IsTrimmable(s[0]) then TrimStart(s[1..]) else s
  }

  function TrimEnd(s: string): (r: string)
    ensures |r| <= |s| && r == s[..|r|]
    ensures r != [] ==> !IsTrimmable(r[|r| - 1])
    ensures forall i :: |r| <= i < |s| ==> IsTrimmable(s[i])
  {
    if s != [] && IsTrimmable(s[|s| - 1]) then TrimEnd(s[..|s| - 1]) else s
  }

  /** `r` is the part of `s` starting at `i`, and every character of `s` before or after it is <= U+0020. */
  predicate TrimmedAt(s: string, i: int, r: string) {
    0 <= i && i + |r| <= |s| && r == s[i..i + |r|] &&
    (forall k :: 0 <= k < i ==> IsTrimmable(s[k])) && (forall k :: i + |r| <= k < |s| ==> IsTrimmable(s[k]))
  }

  /** Cutting a trimmable prefix and then a trimmable suffix leaves a part of `s` surrounded by trimmable characters. */
  lemma TrimmedAtParts(s: string, t: string, r: string)
    requires |t| <= |s| && t == s[|s| - |t|..] && forall k :: 0 <= k < |s| - |t| ==> IsTrimmable(s[k])
    requires |r| <= |t| && r == t[..|r|] && forall k :: |r| <= k < |t| ==> IsTrimmable(t[k])
    ensures TrimmedAt(s, |s| - |t|, r)
  {
    var i := |s| - |t|;
    assert r == s[i..i + |r|] by {
      assert forall j :: 0 <= j < |r| ==> r[j] == t[j] == s[i + j];
    }
    forall k | i + |r| <= k < |s|
      ensures IsTrimmable(s[k])
    {
      assert s[k] == t[k - i];
    }
  }

  /** `s.trim()`: the middle of `s` left once every leading and trailing character <= U+0020 is gone. */
  function Trim(s: string): (r: string)
    ensures |r| <= |s|
    ensures r != [] ==> !IsTrimmable(r[0]) && !IsTrimmable(r[|r| - 1])
    ensures exists i :: TrimmedAt(s, i, r)
  {
    TrimmedAtParts(s, TrimStart(s), TrimEnd(TrimStart(s)));
    TrimEnd(TrimStart(s))
  }

  /** Java's "blank" test used throughout the source: `s.trim().isEmpty()`. */
  predicate IsBlank(s: string) {
    Trim(s) == []
  }

  /** `x != null && !x.trim().isEmpty()` */
  predicate NonBlank(x: Option<string>) {
    x.Some? && !IsBlank(x.value)
  }

  /** A string is blank exactly when every one of its characters is at most U+0020. */
  lemma {:induction false} BlankIffAllTrimmable(s: string)
    ensures IsBlank(s) <==> forall i :: 0 <= i < |s| ==> IsTrimmable(s[i])
  {
  }

  // ---------------------------------------------------------------------------
  // Decimal text of integers and Integer.valueOf(String) (radix 10).

  predicate IsDigit(c: char) {
    '0' <= c <= '9'
  }

  predicate AllDigits(s: string) {
    forall i :: 0 <= i < |s| ==> IsDigit(s[i])
  }

  function DigitsValue(s: string): nat
    requires AllDigits(s)
  {
    if s == [] then 0 else 10 * DigitsValue(s[..|s| - 1]) + ((s[|s| - 1] as int) - ('0' as int))
  }

  function DigitChar(d: nat): (c: char)
    requires d < 10
    ensures IsDigit(c) && (c as int) - ('0' as int) == d
  {
    (('0' as int) + d) as char
  }

  /** The decimal digits of `n`, most significant first, without leading zeros. */
  function NatText(n: nat): (s: string)
    ensures s != [] && AllDigits(s) && DigitsValue(s) == n
  {
    if n < 10 then
      [DigitChar(n)]
    else
      var prefix := NatText(n / 10);
      var s := prefix + [DigitChar(n % 10)];
      assert s[..|s| - 1] == prefix;
      s
  }

  /** `toString()` of an `Integer`, `Long` or `BigInteger` holding `n`. */
  function DecimalText(n: int): string {
    if n < 0 then "-" + NatText(-n) else NatText(n)
  }

  /**
   * `Integer.valueOf(s)`: an optional sign, then one or more digits, and a value that fits in
   * an `int`; `None` stands for the NumberFormatException thrown otherwise.
   */
  function ParseInt(s: string): (r: Option<Int32>)
    ensures r.Some? ==> s != [] && (AllDigits(s) || ((s[0] == '-' || s[0] == '+') && s[1..] != [] && AllDigits(s[1..])))
    ensures s != [] && AllDigits(s) ==> r == if DigitsValue(s) <= INT_MAX then Some(DigitsValue(s)) else None
    ensures |s| > 1 && s[0] == '-' && AllDigits(s[1..]) ==>
      r == if DigitsValue(s[1..]) <= -INT_MIN then Some(-(DigitsValue(s[1..]) as int)) else None
    ensures |s| > 1 && s[0] == '+' && AllDigits(s[1..]) ==>
      r == if DigitsValue(s[1..]) <= INT_MAX then Some(DigitsValue(s[1..])) else None
  {
    if s == [] then None
    else
      var signed := s[0] == '-' || s[0] == '+';
      var digits := if signed then s[1..] else s;
      if digits == [] || !AllDigits(digits) then None
      else
        var v: int := if s[0] == '-' then -(DigitsValue(digits) as int) else DigitsValue(digits);
        if INT_MIN <= v <= INT_MAX then Some(v) else None
  }

  /** Round trip: parsing the decimal text of `n` gives `n` back exactly when `n` fits in an `int`. */
  lemma {:induction false} ParseDecimalText(n: int)
    ensures ParseInt(DecimalText(n)) == if INT_MIN <= n <= INT_MAX then Some(n) else None
  {
    var s := DecimalText(n);
    if n < 0 {
      var t := NatText(-n);
      assert s[0] == '-' && s[1..] == t;
    } else {
      var t := NatText(n);
      assert !IsDigit('-') && !IsDigit('+');
      assert s[0] != '-' && s[0] != '+';
    }
  }

  // ---------------------------------------------------------------------------

  /** The exceptions that escape from the modelled code, with the parts of their message it composes. */
  datatype Exception =
    | RuntimeException(message: string)     // thrown by the services with this message
    | ElasticsearchException(status: nat)   // the engine answered with an error status
    | ClassCastException                    // `(String) x` on a non-string
    | NumberFormatException(input: string)  // `Integer.valueOf` / `Double.valueOf` rejected the text
    | NullPointerException
    | ArithmeticException                   // integer division by zero
    | MissingRequiredPropertyException(property: string) // a client request built without a required part
    | JsonParsingException                  // the client could not parse a text given as JSON
}
