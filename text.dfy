/**
 * String primitives with the meaning JavaScript gives them: the white-space
 * set of `\s` and `trim`, ASCII case mapping, substring search, decimal
 * digit strings, and the en-US rendering of numbers.
 */
module Text {
  import opened Wrappers

  /** The characters matched by `\s` and removed by `String.prototype.trim`. */
  predicate IsSpace(c: char) {
    c == ' ' || c == '\t' || c == '\n' || c == '\U{000B}' || c == '\U{000C}' || c == '\r'
    || c == '\U{00A0}' || c == '\U{1680}' || ('\U{2000}' <= c <= '\U{200A}')
    || c == '\U{2028}' || c == '\U{2029}' || c == '\U{202F}' || c == '\U{205F}'
    || c == '\U{3000}' || c == '\U{FEFF}'
  }

  /** The characters that `.` in a regular expression does not match. */
  predicate IsLineTerminator(c: char) {
    c == '\n' || c == '\r' || c == '\U{2028}' || c == '\U{2029}'
  }

  predicate IsDigit(c: char) {
    '0' <= c <= '9'
  }

  predicate AllDigits(s: string) {
    forall k :: 0 <= k < |s| ==> IsDigit(s[k])
  }

  // ---------------------------------------------------------------------
  // trim

  function TrimStart(s: string): (r: string)
    ensures |r| <= |s| && r == s[|s| - |r|..]
    ensures forall k :: 0 <= k < |s| - |r| ==> IsSpace(s[k])
    ensures r == [] || !IsSpace(r[0])
  {
    if |s| > 0 && IsSpace(s[0]) then TrimStart(s[1..]) else s
  }

  function TrimEnd(s: string): (r: string)
    ensures |r| <= |s| && r == s[..|r|]
    ensures forall k :: |r| <= k < |s| ==> IsSpace(s[k])
    ensures r == [] || !IsSpace(r[|r| - 1])
  {
    if |s| > 0 && IsSpace(s[|s| - 1]) then TrimEnd(s[..|s| - 1]) else s
  }

  /** `s.trim()`: the slice of `s` left after dropping white space at both ends. */
  function Trim(s: string): (r: string)
    ensures r == [] || (!IsSpace(r[0]) && !IsSpace(r[|r| - 1]))
    ensures var i := |s| - |TrimStart(s)|; i + |r| <= |s| && r == s[i..i + |r|]
  {
    var a := TrimStart(s);
    var r := TrimEnd(a);
    assert r == a[..|r|];
    r
  }

  lemma TrimOfTrimmed(s: string)
    requires s == [] || (!IsSpace(s[0]) && !IsSpace(s[|s| - 1]))
    ensures Trim(s) == s
  {
  }

  lemma TrimIdempotent(s: string)
    ensures Trim(Trim(s)) == Trim(s)
  {
    TrimOfTrimmed(Trim(s));
  }

  // ---------------------------------------------------------------------
  // ASCII case mapping (what toLowerCase/toUpperCase do on ASCII letters)

  function LowerChar(c: char): char {
    if 'A' <= c <= 'Z' then (c as int + 32) as char else c
  }

  function UpperChar(c: char): char {
    if 'a' <= c <= 'z' then (c as int - 32) as char else c
  }

  function Lower(s: string): (r: string)
    ensures |r| == |s|
  {
    seq(|s|, k requires 0 <= k < |s| => LowerChar(s[k]))
  }

  function Upper(s: string): (r: string)
    ensures |r| == |s|
  {
    seq(|s|, k requires 0 <= k < |s| => UpperChar(s[k]))
  }

  lemma LowerChars(s: string)
    ensures forall k :: 0 <= k < |s| ==> Lower(s)[k] == LowerChar(s[k])
  {
  }

  lemma LowerIdempotent(s: string)
    ensures Lower(Lower(s)) == Lower(s)
  {
  }

  lemma LowerAppend(a: string, b: string)
    ensures Lower(a + b) == Lower(a) + Lower(b)
  {
  }

  /** Lower-casing maps white space to itself and everything else to non-space. */
  lemma LowerKeepsSpaces(c: char)
    ensures IsSpace(LowerChar(c)) <==> IsSpace(c)
    ensures IsSpace(c) ==> LowerChar(c) == c
  {
  }

  // ---------------------------------------------------------------------
  // search

  predicate StartsWith(s: string, p: string) {
    |p| <= |s| && s[..|p|] == p
  }

  predicate EndsWith(s: string, p: string) {
    |p| <= |s| && s[|s| - |p|..] == p
  }

  lemma AppendAssociative(a: string, b: string, c: string)
    ensures a + b + c == a + (b + c)
  {
  }

  lemma EndsWithAppend(a: string, t: string)
    ensures EndsWith(a + t, t)
  {
    assert (a + t)[|a + t| - |t|..] == t;
  }

  predicate OccursAt(s: string, t: string, i: nat) {
    i + |t| <= |s| && s[i..i + |t|] == t
  }

  /** The first position at or after `i` where `t` occurs in `s`. */
  function IndexFrom(s: string, t: string, i: nat): (r: Option<nat>)
    ensures r.Some? ==> i <= r.value && OccursAt(s, t, r.value)
    ensures r.Some? ==> forall k :: i <= k < r.value ==> !OccursAt(s, t, k)
    ensures r.None? ==> forall k: nat :: i <= k ==> !OccursAt(s, t, k)
    decreases |s| - i
  {
    if i + |t| > |s| then None
    else if OccursAt(s, t, i) then Some(i)
    else IndexFrom(s, t, i + 1)
  }

  /** `s.indexOf(t)`, with None for -1. */
  function IndexOf(s: string, t: string): (r: Option<nat>)
    ensures r.Some? ==> OccursAt(s, t, r.value) && forall k: nat :: k < r.value ==> !OccursAt(s, t, k)
    ensures r.None? ==> forall k: nat :: !OccursAt(s, t, k)
  {
    IndexFrom(s, t, 0)
  }

  /** `s.includes(t)`. */
  predicate Contains(s: string, t: string) {
    IndexOf(s, t).Some?
  }

  lemma ContainsAt(s: string, t: string, i: nat)
    requires OccursAt(s, t, i)
    ensures Contains(s, t)
  {
  }

  lemma ContainsEmpty(s: string)
    ensures Contains(s, "")
  {
    assert OccursAt(s, "", 0);
  }

  /** The part of `s` before the first `c`, that is `s.split(c)[0]`. */
  function Before(s: string, c: char): (r: string)
    ensures |r| <= |s| && r == s[..|r|]
    ensures c !in r
    ensures |r| < |s| ==> s[|r|] == c
  {
    if s == [] || s[0] == c then [] else [s[0]] + Before(s[1..], c)
  }

  /** `s.replace(c, '')` for a one-character pattern: only the first `c` goes. */
  function RemoveFirst(s: string, c: char): (r: string)
    ensures c in s ==> |r| == |s| - 1
    ensures c !in s ==> r == s
  {
    if s == [] then []
    else if s[0] == c then s[1..]
    else [s[0]] + RemoveFirst(s[1..], c)
  }

  /** `s.replace(/,/g, '')`. */
  function RemoveCommas(s: string): (r: string)
    ensures ',' !in r
    ensures forall c :: c != ',' ==> (c in r <==> c in s)
  {
    if s == [] then []
    else if s[0] == ',' then RemoveCommas(s[1..])
    else [s[0]] + RemoveCommas(s[1..])
  }

  lemma RemoveCommasAppend(a: string, b: string)
    ensures RemoveCommas(a + b) == RemoveCommas(a) + RemoveCommas(b)
  {
    if a == [] {
      assert a + b == b;
    } else {
      assert (a + b)[1..] == a[1..] + b;
      RemoveCommasAppend(a[1..], b);
    }
  }

  lemma RemoveCommasNoop(s: string)
    requires ',' !in s
    ensures RemoveCommas(s) == s
  {
    if s != [] {
      RemoveCommasNoop(s[1..]);
    }
  }

  // ---------------------------------------------------------------------
  // decimal digit strings

  function DigitValue(c: char): nat
    requires IsDigit(c)
  {
    c as int - '0' as int
  }

  function DigitChar(d: nat): (c: char)
    requires d < 10
    ensures IsDigit(c) && DigitValue(c) == d
  {
    ('0' as int + d) as char
  }

  /** The value of a string of decimal digits, read most significant first. */
  function DigitsValue(s: string): nat
    requires AllDigits(s)
  {
    if s == [] then 0 else DigitsValue(s[..|s| - 1]) * 10 + DigitValue(s[|s| - 1])
  }

  function Pow10(n: nat): (r: nat)
    ensures r >= 1
  {
    if n == 0 then 1 else 10 * Pow10(n - 1)
  }

  /** The decimal rendering of `n`, without leading zeros. */
  function NatToString(n: nat): (r: string)
    ensures |r| >= 1 && AllDigits(r)
    ensures DigitsValue(r) == n
    ensures |r| > 1 ==> r[0] != '0'
  {
    if n < 10 then [DigitChar(n)]
    else
      var r := NatToString(n / 10) + [DigitChar(n % 10)];
      assert r[..|r| - 1] == NatToString(n / 10);
      r
  }

  function IntToString(i: int): string {
    if i < 0 then "-" + NatToString(-i) else NatToString(i)
  }

  /** `s` matches `^\d*\.?\d*$`: digits, at most one dot, digits. */
  predicate DigitsDotDigits(s: string) {
    match IndexOf(s, ".")
    case None => AllDigits(s)
    case Some(d) => AllDigits(s[..d]) && AllDigits(s[d + 1..])
  }

  lemma DigitsDotDigitsChars(s: string)
    requires DigitsDotDigits(s)
    ensures forall k :: 0 <= k < |s| ==> IsDigit(s[k]) || s[k] == '.'
  {
    match IndexOf(s, ".")
    case None =>
    case Some(d) =>
      forall k | 0 <= k < |s|
        ensures IsDigit(s[k]) || s[k] == '.'
      {
        if k < d {
          assert s[k] == s[..d][k];
        } else if k > d {
          assert s[k] == s[d + 1..][k - d - 1];
        }
      }
  }

  /** A decimal literal `\d+(\.\d*)?|\.\d+`: the shape above with at least one digit. */
  predicate IsDecimalLiteral(s: string) {
    DigitsDotDigits(s) && s != [] && s != "."
  }

  /** The exact value of a string of the shape `\d*\.?\d*`. */
  function DecimalValue(s: string): real
    requires DigitsDotDigits(s)
  {
    match IndexOf(s, ".")
    case None => DigitsValue(s) as real
    case Some(d) =>
      DigitsValue(s[..d]) as real + DigitsValue(s[d + 1..]) as real / Pow10(|s| - d - 1) as real
  }

  lemma DecimalValueNonNegative(s: string)
    requires DigitsDotDigits(s)
    ensures DecimalValue(s) >= 0.0
  {
  }

  // ---------------------------------------------------------------------
  // en-US number rendering (`toLocaleString('en-US')`)

  /** Digit groups of three separated by commas, counted from the right. */
  function GroupThousands(d: string): (r: string)
    ensures |d| <= 3 ==> r == d
  {
    if |d| <= 3 then d else GroupThousands(d[..|d| - 3]) + "," + d[|d| - 3..]
  }

  /** Removing the commas undoes the grouping. */
  lemma {:induction false} UngroupThousands(d: string)
    requires ',' !in d
    ensures RemoveCommas(GroupThousands(d)) == d
  {
    if |d| <= 3 {
      RemoveCommasNoop(d);
    } else {
      var a, b := d[..|d| - 3], d[|d| - 3..];
      assert ',' !in a && ',' !in b by {
        assert forall k :: 0 <= k < |a| ==> a[k] == d[k];
        assert forall k :: 0 <= k < |b| ==> b[k] == d[|d| - 3 + k];
      }
      UngroupThousands(a);
      RemoveCommasAppend(GroupThousands(a) + ",", b);
      RemoveCommasAppend(GroupThousands(a), ",");
      RemoveCommasNoop(b);
      assert a + b == d;
    }
  }

  function StripTrailingZeros(s: string): (r: string)
    ensures |r| <= |s| && r == s[..|r|]
    ensures r == [] || r[|r| - 1] != '0'
  {
    if s != [] && s[|s| - 1] == '0' then StripTrailingZeros(s[..|s| - 1]) else s
  }

  function PadLeft3(s: string): string
    decreases 3 - |s|
  {
    if |s| >= 3 then s else PadLeft3("0" + s)
  }

  /**
   * The en-US rendering of `x`: the integer part in groups of three, and at
   * most three fraction digits, rounded half away from zero, without trailing zeros.
   */
  function LocaleString(x: real): string {
    if x < 0.0 then "-" + LocalePositive(-x) else LocalePositive(x)
  }

  /** `x` in thousandths, rounded half up. */
  function Millis(x: real): int {
    (x * 1000.0 + 0.5).Floor
  }

  function LocalePositive(x: real): string
    requires x >= 0.0
  {
    FormatMillis(Millis(x))
  }

  function FormatMillis(m: nat): string {
    var digits := StripTrailingZeros(PadLeft3(NatToString(m % 1000)));
    GroupThousands(NatToString(m / 1000)) + (if digits == [] then "" else "." + digits)
  }

  lemma MillisOfNat(n: nat)
    ensures Millis(n as real) == n * 1000
  {
    var k := n * 1000;
    assert n as real * 1000.0 + 0.5 == k as real + 0.5;
  }

  /** On whole numbers the rendering is the comma-grouped decimal digits. */
  lemma LocaleOfNat(n: nat)
    ensures LocaleString(n as real) == GroupThousands(NatToString(n))
  {
    MillisOfNat(n);
    var k := n * 1000;
    assert k / 1000 == n && k % 1000 == 0;
    assert StripTrailingZeros(PadLeft3(NatToString(0))) == [];
  }
}
