/**
 * String helpers that the applications take from their languages' standard
 * libraries: Rust's `str::trim` (Unicode white space at both ends) and
 * Python's `str.join`.
 */
module Text {

  /** Unicode White_Space, the set Rust's `char::is_whitespace` tests. */
  predicate IsWhitespace(c: char)
  {
    ('\t' <= c <= '\r') || c == ' ' || c == '\U{0085}' || c == '\U{00A0}' || c == '\U{1680}'
    || ('\U{2000}' <= c <= '\U{200A}') || c == '\U{2028}' || c == '\U{2029}'
    || c == '\U{202F}' || c == '\U{205F}' || c == '\U{3000}'
  }

  /** All characters of `s` are white space. */
  predicate AllWhitespace(s: string)
  {
    forall i :: 0 <= i < |s| ==> IsWhitespace(s[i])
  }

  /** `s` without its leading white space. */
  function TrimStart(s: string): string
  {
    if s != [] && IsWhitespace(s[0]) then TrimStart(s[1..]) else s
  }

  /** `s` without its trailing white space. */
  function TrimEnd(s: string): string
  {
    if s != [] && IsWhitespace(s[|s| - 1]) then TrimEnd(s[..|s| - 1]) else s
  }

  /** Rust's `str::trim`: `s` without white space at either end. */
  function Trim(s: string): string
  {
    TrimEnd(TrimStart(s))
  }

  /** TrimStart removes a white-space prefix and stops at the first other character. */
  lemma {:induction false} TrimStartSpec(s: string)
    ensures var r := TrimStart(s);
      && |r| <= |s| && r == s[|s| - |r|..]
      && (r == [] || !IsWhitespace(r[0]))
      && AllWhitespace(s[..|s| - |r|])
  {
    if s != [] && IsWhitespace(s[0]) {
      TrimStartSpec(s[1..]);
      var r := TrimStart(s[1..]);
      assert s[1..][..|s| - 1 - |r|] == s[1..|s| - |r|];
      assert s[..|s| - |r|] == [s[0]] + s[1..|s| - |r|];
    }
  }

  /** TrimEnd removes a white-space suffix and stops at the last other character. */
  lemma {:induction false} TrimEndSpec(s: string)
    ensures var r := TrimEnd(s);
      && |r| <= |s| && r == s[..|r|]
      && (r == [] || !IsWhitespace(r[|r| - 1]))
      && AllWhitespace(s[|r|..])
  {
    if s != [] && IsWhitespace(s[|s| - 1]) {
      TrimEndSpec(s[..|s| - 1]);
      var r := TrimEnd(s[..|s| - 1]);
      assert s[..|s| - 1][|r|..] + [s[|s| - 1]] == s[|r|..];
    }
  }

  /**
   * A trimmed string is a contiguous piece of the original that neither
   * starts nor ends with white space, and everything cut off is white space.
   */
  lemma TrimIsInnerPiece(s: string)
    ensures exists i, j :: 0 <= i <= j <= |s| && Trim(s) == s[i..j]
              && AllWhitespace(s[..i]) && AllWhitespace(s[j..])
    ensures Trim(s) == [] || (!IsWhitespace(Trim(s)[0]) && !IsWhitespace(Trim(s)[|Trim(s)| - 1]))
  {
    var t := TrimStart(s);
    TrimStartSpec(s);
    TrimEndSpec(t);
    var i := |s| - |t|;
    var j := i + |TrimEnd(t)|;
    assert t == s[i..];
    assert Trim(s) == s[i..j];
    assert s[j..] == t[|TrimEnd(t)|..];
    if Trim(s) != [] {
      assert Trim(s)[0] == t[0];
    }
  }

  /** A string trims to the empty string exactly when it is all white space. */
  lemma TrimEmptyIff(s: string)
    ensures Trim(s) == [] <==> AllWhitespace(s)
  {
    var t := TrimStart(s);
    TrimStartSpec(s);
    TrimEndSpec(t);
    if Trim(s) == [] {
      assert s[..|s| - |t|] == s;
    } else {
      assert t == s[|s| - |t|..];
      assert t != [] && !IsWhitespace(s[|s| - |t|]);
    }
  }

  /** Trimming twice trims nothing more. */
  lemma TrimIdempotent(s: string)
    ensures Trim(Trim(s)) == Trim(s)
  {
    var r := Trim(s);
    TrimIsInnerPiece(s);
    TrimStartSpec(TrimStart(s));
    TrimEndSpec(TrimStart(s));
    if r != [] {
      assert TrimStart(r) == r;
      assert TrimEnd(r) == r;
    }
  }

  /** Python's `sep.join(parts)`. */
  function Join(parts: seq<string>, sep: string): (r: string)
    ensures parts == [] ==> r == ""
    ensures |parts| == 1 ==> r == parts[0]
  {
    if parts == [] then ""
    else if |parts| == 1 then parts[0]
    else parts[0] + sep + Join(parts[1..], sep)
  }

  /** Joining one more part appends the separator and that part. */
  lemma {:induction false} JoinSnoc(parts: seq<string>, last: string, sep: string)
    requires parts != []
    ensures Join(parts + [last], sep) == Join(parts, sep) + sep + last
  {
    if |parts| == 1 {
      assert (parts + [last])[1..] == [last];
    } else {
      assert (parts + [last])[1..] == parts[1..] + [last];
      JoinSnoc(parts[1..], last, sep);
    }
  }

  predicate IsDigit(c: char)
  {
    '0' <= c <= '9'
  }

  predicate AllDigits(s: string)
  {
    forall i :: 0 <= i < |s| ==> IsDigit(s[i])
  }

  /** The decimal rendering of `n` that Rust's `{}` gives. */
  function DecimalString(n: nat): string
    decreases n
  {
    if n < 10 then [('0' as int + n) as char]
    else DecimalString(n / 10) + [('0' as int + n % 10) as char]
  }

  /** The rendering is digits only, with no leading zero, and one digit exactly for 0..9. */
  lemma {:induction false} DecimalStringDigits(n: nat)
    ensures var s := DecimalString(n);
      && AllDigits(s)
      && (|s| > 1 ==> s[0] != '0')
      && |s| >= 1 && (|s| == 1 <==> n < 10)
    decreases n
  {
    if n >= 10 {
      DecimalStringDigits(n / 10);
      var s := DecimalString(n);
      assert s[..|s| - 1] == DecimalString(n / 10);
      assert s[0] == DecimalString(n / 10)[0];
    }
  }

  /** The number a string of decimal digits denotes. */
  function DecimalValue(s: string): nat
    requires AllDigits(s)
  {
    if s == [] then 0
    else
      assert IsDigit(s[|s| - 1]);
      10 * DecimalValue(s[..|s| - 1]) + (s[|s| - 1] as int - '0' as int)
  }

  /** Reading the rendering back gives the number. */
  lemma {:induction false} DecimalRoundTrip(n: nat)
    ensures AllDigits(DecimalString(n)) && DecimalValue(DecimalString(n)) == n
    decreases n
  {
    DecimalStringDigits(n);
    if n >= 10 {
      var s := DecimalString(n);
      assert s[..|s| - 1] == DecimalString(n / 10);
      DecimalStringDigits(n / 10);
      DecimalRoundTrip(n / 10);
    }
  }

  /**
   * `{:.1}` on a number: the value rounded to tenths, half away from zero,
   * with one digit after the point.
   */
  function Fixed1(x: real): string
  {
    if x < 0.0 then "-" + UnsignedFixed1(-x) else UnsignedFixed1(x)
  }

  function UnsignedFixed1(x: real): (s: string)
    requires x >= 0.0
  {
    var tenths := RoundedTenths(x);
    DecimalString(tenths / 10) + "." + DecimalString(tenths % 10)
  }

  /** `x` in tenths, rounded half up. */
  function RoundedTenths(x: real): (t: nat)
    requires x >= 0.0
    ensures t as real - 0.5 <= 10.0 * x < t as real + 0.5
  {
    (10.0 * x + 0.5).Floor
  }

  /** The rendering reads back as a number of tenths within half a tenth of `x`. */
  lemma Fixed1ReadsBack(x: real)
    requires x >= 0.0
    ensures var s := Fixed1(x); var w := DecimalString(RoundedTenths(x) / 10);
      && s == w + "." + [s[|s| - 1]] && IsDigit(s[|s| - 1]) && AllDigits(w)
      && 10 * DecimalValue(w) + DecimalValue([s[|s| - 1]]) == RoundedTenths(x)
      && -0.05 < (DecimalValue(w) as real + DecimalValue([s[|s| - 1]]) as real / 10.0) - x <= 0.05
  {
    var t := RoundedTenths(x);
    DecimalStringDigits(t / 10);
    DecimalStringDigits(t % 10);
    DecimalRoundTrip(t / 10);
    DecimalRoundTrip(t % 10);
    assert |DecimalString(t % 10)| == 1;
    var whole, digit := t / 10, t % 10;
    var s := Fixed1(x);
    assert s == DecimalString(whole) + "." + DecimalString(digit);
    assert [s[|s| - 1]] == DecimalString(digit);
    assert whole * 10 + digit == t;
    assert whole as real + digit as real / 10.0 == t as real / 10.0;
  }
}
