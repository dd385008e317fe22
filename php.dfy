/** The pieces of the PHP runtime that the query builder leans on: scalar values as
    the wrapper receives them, truthiness (`if ($x)`), conversion to string by
    interpolation (`"... $x ..."`), `implode` and `rtrim`. */
module Php {

  /** A PHP scalar as handed to the wrapper. Floats, arrays and objects are not modelled. */
  datatype Value = Null | Bool(b: bool) | Int(i: int) | Str(s: string)

  /** PHP's conversion to boolean, as used by `if ($x)`:
      null, false, 0, "" and "0" are falsy, everything else is truthy. */
  predicate Truthy(v: Value) {
    match v
    case Null => false
    case Bool(b) => b
    case Int(i) => i != 0
    case Str(s) => s != "" && s != "0"
  }

  // ---------------------------------------------------------------------------
  // Decimal text of integers, as interpolation writes it

  predicate IsDigit(c: char) {
    '0' <= c <= '9'
  }

  predicate AllDigits(s: string) {
    forall k :: 0 <= k < |s| ==> IsDigit(s[k])
  }

  function DigitValue(c: char): (d: nat)
    requires IsDigit(c)
    ensures d < 10
  {
    c as int - '0' as int
  }

  function DigitChar(d: nat): (c: char)
    requires d < 10
    ensures IsDigit(c) && DigitValue(c) == d
  {
    (d + '0' as int) as char
  }

  /** Decimal form of a non-negative integer: digits only, never empty,
      and no leading zero unless the number is zero itself. */
  function NatToString(n: nat): (r: string)
    ensures |r| > 0 && AllDigits(r)
    ensures r[0] == '0' ==> n == 0
    decreases n
  {
    if n < 10 then [DigitChar(n)] else NatToString(n / 10) + [DigitChar(n % 10)]
  }

  /** The number a string of decimal digits denotes. */
  function DigitsValue(s: string): nat
    requires AllDigits(s)
  {
    if s == [] then 0 else DigitsValue(s[..|s| - 1]) * 10 + DigitValue(s[|s| - 1])
  }

  lemma {:induction false} DigitsValueOfNatToString(n: nat)
    ensures DigitsValue(NatToString(n)) == n
    decreases n
  {
    if n >= 10 {
      var r := NatToString(n);
      assert r[..|r| - 1] == NatToString(n / 10);
      DigitsValueOfNatToString(n / 10);
    }
  }

  /** PHP's string form of an int: an optional minus sign followed by the decimal digits. */
  function IntToString(i: int): (r: string)
    ensures |r| > 0
  {
    if i < 0 then "-" + NatToString(-i) else NatToString(i)
  }

  predicate IsIntString(s: string) {
    AllDigits(s) || (|s| > 0 && s[0] == '-' && AllDigits(s[1..]))
  }

  /** Reads back the text IntToString writes. */
  function ParseInt(s: string): int
    requires IsIntString(s)
  {
    if |s| > 0 && s[0] == '-' then -(DigitsValue(s[1..]) as int) else DigitsValue(s)
  }

  /** The decimal text of an integer loses nothing: reading it back gives the integer. */
  lemma IntToStringRoundTrip(i: int)
    ensures IsIntString(IntToString(i)) && ParseInt(IntToString(i)) == i
  {
    if i < 0 {
      assert IntToString(i)[1..] == NatToString(-i);
      DigitsValueOfNatToString(-i);
    } else {
      DigitsValueOfNatToString(i);
    }
  }

  /** Distinct integers are written differently. */
  lemma IntToStringInjective(i: int, j: int)
    requires IntToString(i) == IntToString(j)
    ensures i == j
  {
    IntToStringRoundTrip(i);
    IntToStringRoundTrip(j);
  }

  // ---------------------------------------------------------------------------
  // Interpolation

  /** The text a value contributes when interpolated into a double-quoted string. */
  function Interpolate(v: Value): string {
    match v
    case Null => ""
    case Bool(b) => if b then "1" else ""
    case Int(i) => IntToString(i)
    case Str(s) => s
  }

  /** A scalar is truthy exactly when its string form is neither "" nor "0". */
  lemma TruthyIffTextTruthy(v: Value)
    ensures Truthy(v) <==> (Interpolate(v) != "" && Interpolate(v) != "0")
  {
  }

  // ---------------------------------------------------------------------------
  // implode

  /** `implode(sep, parts)`: the parts in order with `sep` between neighbours. */
  function Implode(sep: string, parts: seq<string>): string {
    if |parts| == 0 then ""
    else if |parts| == 1 then parts[0]
    else parts[0] + sep + Implode(sep, parts[1..])
  }

  /** Adding a part at the end adds one separator and the part. */
  lemma {:induction false} ImplodeSnoc(sep: string, parts: seq<string>, last: string)
    requires parts != []
    ensures Implode(sep, parts + [last]) == Implode(sep, parts) + sep + last
    decreases |parts|
  {
    if |parts| == 1 {
      assert (parts + [last])[1..] == [last];
    } else {
      assert (parts + [last])[1..] == parts[1..] + [last];
      ImplodeSnoc(sep, parts[1..], last);
    }
  }

  // ---------------------------------------------------------------------------
  // Character counts and rtrim

  function Count(c: char, s: string): nat {
    if s == [] then 0 else (if s[0] == c then 1 else 0) + Count(c, s[1..])
  }

  lemma {:induction false} CountAppend(c: char, a: string, b: string)
    ensures Count(c, a + b) == Count(c, a) + Count(c, b)
    decreases |a|
  {
    if a != [] {
      assert (a + b)[0] == a[0];
      assert (a + b)[1..] == a[1..] + b;
      CountAppend(c, a[1..], b);
    } else {
      assert a + b == b;
    }
  }

  /** A string holds no occurrence of c exactly when its count of c is zero. */
  lemma {:induction false} CountZeroIff(c: char, s: string)
    ensures Count(c, s) == 0 <==> c !in s
    decreases |s|
  {
    if s != [] {
      assert s == [s[0]] + s[1..];
      CountZeroIff(c, s[1..]);
    }
  }

  /** The occurrences of c over all the parts together. */
  function CountAll(c: char, parts: seq<string>): nat {
    if parts == [] then 0 else Count(c, parts[0]) + CountAll(c, parts[1..])
  }

  /** Imploding adds the occurrences in the separator once between each two neighbours
      and nothing else. */
  lemma {:induction false} ImplodeCount(c: char, sep: string, parts: seq<string>)
    ensures Count(c, Implode(sep, parts))
         == CountAll(c, parts) + (if parts == [] then 0 else (|parts| - 1) * Count(c, sep))
    decreases |parts|
  {
    if |parts| == 1 {
      assert parts[1..] == [];
    } else if |parts| > 1 {
      CountAppend(c, parts[0] + sep, Implode(sep, parts[1..]));
      CountAppend(c, parts[0], sep);
      ImplodeCount(c, sep, parts[1..]);
    }
  }

  /** `rtrim(s, chars)`, where `chars` is the character list of PHP's second argument:
      the longest prefix of `s` that does not end in one of `chars`; everything cut
      off is made of `chars`. */
  function RTrim(s: string, chars: set<char>): (r: string)
    ensures r <= s
    ensures r == [] || r[|r| - 1] !in chars
    ensures forall k :: |r| <= k < |s| ==> s[k] in chars
    decreases |s|
  {
    if s != [] && s[|s| - 1] in chars then RTrim(s[..|s| - 1], chars) else s
  }

  /** Trimming stops at the first character from the right that is not in the list. */
  lemma {:induction false} RTrimStopsAt(s: string, tail: string, chars: set<char>)
    requires s == [] || s[|s| - 1] !in chars
    requires forall k :: 0 <= k < |tail| ==> tail[k] in chars
    ensures RTrim(s + tail, chars) == s
    decreases |tail|
  {
    if tail == [] {
      assert s + tail == s;
    } else {
      var u := s + tail;
      assert u[|u| - 1] == tail[|tail| - 1];
      assert u[..|u| - 1] == s + tail[..|tail| - 1];
      RTrimStopsAt(s, tail[..|tail| - 1], chars);
    }
  }
}
