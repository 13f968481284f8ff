/**
 * What the tier-row pattern of the DOM price scraping reads from the rows a
 * 1688 page typically shows: a quantity range and a threshold with a yen
 * price.
 */
module DomPriceRows {
  import opened Wrappers
  import opened Text
  import opened Js
  import opened DomImageUrl
  import opened DomPrices

  lemma {:induction false} MatchOneOfNone(s: string, alts: seq<string>)
    requires forall k :: 0 <= k < |alts| ==> !PrefixNoCase(s, alts[k])
    ensures MatchOneOf(s, alts) == None
    decreases |alts|
  {
    if alts != [] {
      assert forall k :: 0 <= k < |alts[1..]| ==> alts[1..][k] == alts[k + 1];
      MatchOneOfNone(s, alts[1..]);
    }
  }

  /** No unit word starts where a digit or a yen sign stands. */
  lemma NoUnitAt(s: string)
    requires s != [] && (IsDigit(s[0]) || IsYen(s[0]))
    ensures MatchOneOf(s, Units) == None
  {
    forall k | 0 <= k < |Units|
      ensures !PrefixNoCase(s, Units[k])
    {
      var u := Units[k];
      assert u[0] == '\U{4EF6}' || u[0] == 'p';
      if |u| <= |s| {
        LowerChars(s[..|u|]);
        assert Lower(s[..|u|])[0] == LowerChar(s[0]) == s[0];
      }
    }
    MatchOneOfNone(s, Units);
  }

  /** A range sign right before a digit is the whole glue. */
  lemma GlueAfterSign(s: string, j: nat)
    requires j + 1 < |s| && IsRangeSign(s[j]) && IsDigit(s[j + 1])
    ensures GlueEnd(s, j) == Some(j + 1)
  {
    NoUnitAt(s[j + 1..]);
  }

  lemma SkipOneSpace(s: string, j: nat)
    requires j + 1 < |s| && s[j] == ' ' && !IsSpace(s[j + 1])
    ensures SkipSpaces(s, j) == j + 1
  {
    assert SkipSpaces(s, j + 1) == j + 1;
  }

  /** Spaces and a yen sign before a digit are the whole glue. */
  lemma GlueAfterYen(s: string, j: nat)
    requires j + 2 < |s| && s[j] == ' ' && IsYen(s[j + 1]) && IsDigit(s[j + 2])
    ensures GlueEnd(s, j) == Some(j + 2)
  {
    SkipOneSpace(s, j);
    NoUnitAt(s[j + 1..]);
  }

  /** The run at `i` ends after `d` when `d` stands there and no digit follows. */
  lemma {:induction false} RunEndOf(s: string, i: nat, d: string)
    requires AllDigits(d) && i + |d| <= |s| && s[i..i + |d|] == d
    requires i + |d| < |s| ==> !IsDigit(s[i + |d|])
    ensures RunEnd(s, i) == i + |d|
    decreases |d|
  {
    if d != [] {
      assert s[i] == d[0];
      assert s[i + 1..i + |d|] == d[1..];
      RunEndOf(s, i + 1, d[1..]);
    }
  }

  /** The numeral at `i` is the digits `d` when neither a digit nor a dot follows them. */
  lemma TokenOfDigits(s: string, i: nat, d: string)
    requires d != [] && AllDigits(d) && i + |d| <= |s| && s[i..i + |d|] == d
    requires i + |d| < |s| ==> !IsDigit(s[i + |d|]) && s[i + |d|] != '.'
    ensures TokenAt(s, i) == d
  {
    assert s[i] == d[0];
    RunEndOf(s, i, d);
  }

  /** The numeral at `i` is `d.f` when no digit follows. */
  lemma TokenOfDecimal(s: string, i: nat, d: string, f: string)
    requires d != [] && AllDigits(d) && AllDigits(f)
    requires i + |d| + 1 + |f| <= |s| && s[i..i + |d| + 1 + |f|] == d + "." + f
    requires i + |d| + 1 + |f| < |s| ==> !IsDigit(s[i + |d| + 1 + |f|])
    ensures TokenAt(s, i) == d + "." + f
  {
    var t := d + "." + f;
    var n := i + |d| + 1 + |f|;
    assert s[i..i + |d|] == t[..|d|] == d;
    assert s[i + |d|] == t[|d|] == '.';
    assert s[i + |d| + 1..n] == t[|d| + 1..] == f;
    assert s[i] == d[0];
    RunEndOf(s, i, d);
    RunEndOf(s, i + |d| + 1, f);
    assert TokenEnd(s, i) == n;
  }

  /** The pattern matches at a digit run whose glue leads to a digit. */
  lemma RowMatchAt(s: string, i: nat, q: nat)
    requires i < |s| && IsDigit(s[i])
    requires GlueEnd(s, RunEnd(s, i)) == Some(q)
    ensures RowMatchFrom(s, i) == Some((s[i..RunEnd(s, i)], TokenAt(s, q)))
  {
    assert RowMatchRun(s, i) == Some((s[i..RunEnd(s, i)], TokenAt(s, q)));
  }

  /** The search passes over a character that is not a digit. */
  lemma RowMatchSkip(s: string, i: nat)
    requires i < |s| && !IsDigit(s[i])
    ensures RowMatchFrom(s, i) == RowMatchFrom(s, i + 1)
  {
  }

  /** A match with a positive quantity and a positive price is the row's tier. */
  lemma RowTierOf(s: string, g1: string, g2: Decimal)
    requires RowMatchFrom(s, 0) == Some((g1, g2))
    requires DigitsValue(g1) > 0 && DecimalValue(g2) > 0.0
    ensures RowTier(s) == Some(DomTier(DigitsValue(g1), g2))
  {
  }

  /** The value of a numeral with a dot is at least that of its integer part. */
  lemma DecimalAtLeastIntegerPart(d: string, f: string)
    requires AllDigits(d) && AllDigits(f)
    ensures DigitsDotDigits(d + "." + f) && DecimalValue(d + "." + f) >= DigitsValue(d) as real
  {
    DigitsDotDigitsJoin(d, f);
    var t := d + "." + f;
    assert t[..|d|] == d && t[|d| + 1..] == f;
    var x := DigitsValue(f) as real;
    var p := Pow10(|f|) as real;
    assert |t| - |d| - 1 == |f|;
    assert DecimalValue(t) == DigitsValue(d) as real + x / p;
    QuotientNonNegative(x, p);
  }

  lemma QuotientNonNegative(x: real, p: real)
    requires x >= 0.0 && p > 0.0
    ensures x / p >= 0.0
  {
  }

  /** Where the pieces of a row `a-b…` stand. */
  lemma RangeRowLayout(a: string, b: string, rest: string)
    requires a != [] && b != []
    ensures var s := a + "-" + b + rest;
      |s| == |a| + 1 + |b| + |rest| && s[..|a|] == a && s[|a|] == '-'
      && s[|a| + 1..|a| + 1 + |b|] == b && s[0] == a[0] && s[|a| + 1] == b[0]
      && (rest != [] ==> s[|a| + 1 + |b|] == rest[0])
  {
    var s := a + "-" + b + rest;
    assert s[..|a|] == a;
    assert s[|a| + 1..|a| + 1 + |b|] == b;
  }

  /**
   * A range row `a-b…` gives quantity `a` and price `b`: the upper end of the
   * range is read as the price, whatever the row says after it.
   */
  lemma RangeRowReadsUpperBound(a: string, b: string, rest: string)
    requires a != [] && AllDigits(a) && DigitsValue(a) > 0
    requires b != [] && AllDigits(b) && DigitsValue(b) > 0
    requires rest == [] || (!IsDigit(rest[0]) && rest[0] != '.')
    ensures RowTier(a + "-" + b + rest).Some?
    ensures RowTier(a + "-" + b + rest).value.minQty == DigitsValue(a)
    ensures RowTier(a + "-" + b + rest).value.price == b
  {
    var s := a + "-" + b + rest;
    RangeRowLayout(a, b, rest);
    RunEndOf(s, 0, a);
    GlueAfterSign(s, |a|);
    TokenOfDigits(s, |a| + 1, b);
    RowMatchAt(s, 0, |a| + 1);
    NoDotInDigits(b);
    RowTierOf(s, a, b);
  }

  /** Where the pieces of a row `≥q ¥d.f` stand. */
  lemma YenRowLayout(q: string, d: string, f: string)
    requires q != [] && d != []
    ensures var s := "\U{2265}" + q + " \U{00A5}" + d + "." + f; var n := |q|;
      |s| == 3 + n + |d| + 1 + |f| && s[0] == '\U{2265}'
      && s[1..1 + n] == q && s[1 + n] == ' ' && s[2 + n] == '\U{00A5}'
      && s[3 + n..3 + n + |d| + 1 + |f|] == d + "." + f
      && s[1] == q[0] && s[3 + n] == d[0]
  {
    var s := "\U{2265}" + q + " \U{00A5}" + d + "." + f;
    var n := |q|;
    assert s == ['\U{2265}'] + q + [' ', '\U{00A5}'] + d + "." + f;
    assert s[1..1 + n] == q;
    assert s[3 + n..3 + n + |d| + 1 + |f|] == d + "." + f;
  }

  /** A row `≥q ¥d.f` gives quantity `q` and price `d.f`. */
  lemma YenRowTier(q: string, d: string, f: string)
    requires q != [] && AllDigits(q) && DigitsValue(q) > 0
    requires d != [] && AllDigits(d) && AllDigits(f)
    requires DigitsValue(d) > 0
    ensures RowTier("\U{2265}" + q + " \U{00A5}" + d + "." + f).Some?
    ensures RowTier("\U{2265}" + q + " \U{00A5}" + d + "." + f).value.minQty == DigitsValue(q)
    ensures RowTier("\U{2265}" + q + " \U{00A5}" + d + "." + f).value.price == d + "." + f
  {
    var s := "\U{2265}" + q + " \U{00A5}" + d + "." + f;
    var n := |q|;
    YenRowLayout(q, d, f);
    RunEndOf(s, 1, q);
    GlueAfterYen(s, 1 + n);
    TokenOfDecimal(s, 3 + n, d, f);
    RowMatchAt(s, 1, 3 + n);
    RowMatchSkip(s, 0);
    DecimalAtLeastIntegerPart(d, f);
    RowTierOf(s, q, d + "." + f);
  }

  /** The row `1-99 件 ¥12.50` is read as 99 yuan from one piece. */
  lemma RangeRowExample()
    ensures RowTier("1-99 \U{4EF6} \U{00A5}12.50").Some?
    ensures RowTier("1-99 \U{4EF6} \U{00A5}12.50").value.minQty == 1
    ensures RowTier("1-99 \U{4EF6} \U{00A5}12.50").value.price == "99"
  {
    assert DigitsValue("1") == 1;
    assert DigitsValue("99") == 99;
    assert "1" + "-" + "99" + " \U{4EF6} \U{00A5}12.50" == "1-99 \U{4EF6} \U{00A5}12.50";
    RangeRowReadsUpperBound("1", "99", " \U{4EF6} \U{00A5}12.50");
  }

  // ---------------------------------------------------------------------
  // The tier pattern as its example rows mean it: the upper end of a range
  // `a-b` is passed over, so the price is the yuan amount after the unit.

  /** `(?:-\d+)?` from `j`: past an upper end `-<digits>` when one stands there. */
  function UpperEnd(s: string, j: nat): (r: nat)
    requires j <= |s|
    ensures j <= r <= |s|
  {
    if j + 1 < |s| && s[j] == '-' && IsDigit(s[j + 1]) then RunEnd(s, j + 1) else j
  }

  /** The glue after the quantity, with an upper end `-<digits>` passed over first. */
  function RangeGlueEnd(s: string, j: nat): (r: Option<nat>)
    requires j <= |s|
    ensures r.Some? ==> j <= r.value < |s| && IsDigit(s[r.value])
  {
    GlueEnd(s, UpperEnd(s, j))
  }

  /** The two groups of the range-aware pattern when the match starts at the digit run at `i`. */
  function RangeRowMatchRun(s: string, i: nat): (r: Option<(string, Decimal)>)
    requires i < |s| && IsDigit(s[i])
    ensures r.Some? ==> r.value.0 != [] && AllDigits(r.value.0)
  {
    RunGroups(s, i, RangeGlueEnd(s, RunEnd(s, i)))
  }

  /** The leftmost match of the range-aware pattern from `i`. */
  function RangeRowMatchFrom(s: string, i: nat): (r: Option<(string, Decimal)>)
    ensures r.Some? ==> r.value.0 != [] && AllDigits(r.value.0)
    decreases |s| - i
  {
    if i >= |s| then None
    else if !IsDigit(s[i]) then RangeRowMatchFrom(s, i + 1)
    else
      match RangeRowMatchRun(s, i)
      case Some(m) => Some(m)
      case None => RangeRowMatchFrom(s, RunEnd(s, i))
  }

  /** A row's tier under the range-aware pattern, both numbers positive. */
  function RangeRowTier(text: string): (r: Option<DomTier>)
    ensures r.Some? ==> r.value.minQty > 0 && DecimalValue(r.value.price) > 0.0
  {
    match RangeRowMatchFrom(text, 0)
    case None => None
    case Some((g1, g2)) =>
      var q := DigitsValue(g1);
      if q > 0 && DecimalValue(g2) > 0.0 then Some(DomTier(q, g2)) else None
  }

  /** On a row without a `-` the range-aware pattern reads what the pattern as written reads. */
  lemma {:induction false} RangeMatchWithoutDash(s: string, i: nat)
    requires '-' !in s
    ensures RangeRowMatchFrom(s, i) == RowMatchFrom(s, i)
    decreases |s| - i
  {
    if i < |s| {
      if !IsDigit(s[i]) {
        RangeMatchWithoutDash(s, i + 1);
      } else {
        var e := RunEnd(s, i);
        assert UpperEnd(s, e) == e by {
          if e + 1 < |s| { assert s[e] in s; }
        }
        RangeMatchWithoutDash(s, e);
      }
    }
  }

  /** So the correction changes nothing for a row without a range. */
  lemma RangeTierWithoutDash(text: string)
    requires '-' !in text
    ensures RangeRowTier(text) == RowTier(text)
  {
    RangeMatchWithoutDash(text, 0);
  }

  /** A space, a unit, a space and a yen sign before a digit are the whole glue. */
  lemma GlueAfterUnit(s: string, m: nat)
    requires m + 4 < |s| && s[m] == ' ' && s[m + 1] == '\U{4EF6}' && s[m + 2] == ' '
    requires IsYen(s[m + 3]) && IsDigit(s[m + 4])
    ensures GlueEnd(s, m) == Some(m + 4)
  {
    SkipOneSpace(s, m);
    var t := s[m + 1..];
    assert t[..1] == ['\U{4EF6}'];
    LowerChars(t[..1]);
    assert MatchOneOf(t, Units) == Some(t[..1]);
    SkipOneSpace(s, m + 2);
    assert SkipSpaces(s, m + 4) == m + 4;
  }

  /** `s` is laid out as the row `a-b 件 ¥d.f`, with `m` where the upper end `b` stops. */
  predicate PricedRangeRow(s: string, a: string, b: string, d: string, f: string, m: nat) {
    m == |a| + 1 + |b| && |s| == m + 4 + |d| + 1 + |f| && s[..|a|] == a && s[|a|] == '-'
    && s[|a| + 1..m] == b
    && s[m] == ' ' && s[m + 1] == '\U{4EF6}' && s[m + 2] == ' ' && s[m + 3] == '\U{00A5}'
    && s[m + 4..m + 4 + |d| + 1 + |f|] == d + "." + f
  }

  /** Where the pieces of a row `a-b 件 ¥d.f` stand. */
  lemma PricedRangeLayout(a: string, b: string, d: string, f: string)
    requires a != [] && b != [] && d != []
    ensures PricedRangeRow(a + "-" + b + " \U{4EF6} \U{00A5}" + d + "." + f, a, b, d, f, |a| + 1 + |b|)
  {
    var s := a + "-" + b + " \U{4EF6} \U{00A5}" + d + "." + f;
    var m := |a| + 1 + |b|;
    assert s == a + ['-'] + b + [' ', '\U{4EF6}', ' ', '\U{00A5}'] + (d + "." + f);
    assert s[..|a|] == a;
    assert s[|a| + 1..m] == b;
    assert s[m + 4..m + 4 + |d| + 1 + |f|] == d + "." + f;
  }

  /** The range-aware pattern matches at a digit run whose glue leads to a digit. */
  lemma RangeRowMatchAt(s: string, i: nat, q: nat)
    requires i < |s| && IsDigit(s[i])
    requires RangeGlueEnd(s, RunEnd(s, i)) == Some(q)
    ensures RangeRowMatchFrom(s, i) == Some((s[i..RunEnd(s, i)], TokenAt(s, q)))
  {
    assert RangeRowMatchRun(s, i) == Some((s[i..RunEnd(s, i)], TokenAt(s, q)));
  }

  /** A match of the range-aware pattern with a positive quantity and price is the row's tier. */
  lemma RangeRowTierOf(s: string, g1: string, g2: Decimal)
    requires RangeRowMatchFrom(s, 0) == Some((g1, g2))
    requires DigitsValue(g1) > 0 && DecimalValue(g2) > 0.0
    ensures RangeRowTier(s) == Some(DomTier(DigitsValue(g1), g2))
  {
  }

  /** An upper end `-b` is passed over as a whole. */
  lemma UpperEndOf(s: string, j: nat, b: string)
    requires b != [] && AllDigits(b) && j + 1 + |b| < |s| && s[j] == '-' && s[j + 1..j + 1 + |b|] == b
    requires !IsDigit(s[j + 1 + |b|])
    ensures UpperEnd(s, j) == j + 1 + |b|
  {
    assert s[j + 1] == b[0];
    RunEndOf(s, j + 1, b);
  }

  /** After the quantity, `-b 件 ¥` and then a digit: the glue ends at that digit. */
  lemma RangeGlueOfLayout(s: string, j: nat, b: string, m: nat)
    requires b != [] && AllDigits(b) && m == j + 1 + |b| && m + 4 < |s| && s[j] == '-' && s[j + 1..m] == b
    requires s[m] == ' ' && s[m + 1] == '\U{4EF6}' && s[m + 2] == ' ' && s[m + 3] == '\U{00A5}' && IsDigit(s[m + 4])
    ensures RangeGlueEnd(s, j) == Some(m + 4)
  {
    UpperEndOf(s, j, b);
    GlueAfterUnit(s, m);
  }

  /** The numbers of a row `a-b 件 ¥d.f`: digit runs, a positive quantity and a positive integer part of the price. */
  predicate RangeRowPieces(a: string, b: string, d: string, f: string) {
    a != [] && AllDigits(a) && DigitsValue(a) > 0 && b != [] && AllDigits(b)
    && d != [] && AllDigits(d) && AllDigits(f) && DigitsValue(d) > 0
  }

  /** The quantity `a` starts `s` before a `-`, and the glue after the range leads to the price `p` at `q`. */
  predicate RangeTierFacts(s: string, a: string, q: nat, p: string) {
    a != [] && AllDigits(a) && DigitsValue(a) > 0 && |a| < |s| && s[..|a|] == a && s[|a|] == '-'
    && q < |s| && IsDigit(s[q]) && TokenAt(s, q) == p && DecimalValue(p) > 0.0
    && RangeGlueEnd(s, |a|) == Some(q)
  }

  /** With those facts the row's tier is `a` at `p`. */
  lemma RangeLayoutTier(s: string, a: string, q: nat, p: Decimal)
    requires RangeTierFacts(s, a, q, p)
    ensures RangeRowTier(s).Some? && RangeRowTier(s).value.minQty == DigitsValue(a) && RangeRowTier(s).value.price == p
  {
    assert s[0] == a[0];
    RunEndOf(s, 0, a);
    RangeRowMatchAt(s, 0, q);
    RangeRowTierOf(s, a, p);
  }

  /** In a row laid out as `a-b 件 ¥d.f`, the glue after the range leads to the price `d.f`. */
  lemma PricedRangeParts(s: string, a: string, b: string, d: string, f: string, m: nat)
    requires RangeRowPieces(a, b, d, f) && PricedRangeRow(s, a, b, d, f, m)
    ensures DigitsDotDigits(d + "." + f)
    ensures RangeTierFacts(s, a, m + 4, d + "." + f)
  {
    DecimalAtLeastIntegerPart(d, f);
    PriceAtEnd(s, m + 4, d, f);
    RangeGlueOfLayout(s, |a|, b, m);
  }

  /** The numeral `d.f` ending the row is the price group. */
  lemma PriceAtEnd(s: string, i: nat, d: string, f: string)
    requires d != [] && AllDigits(d) && AllDigits(f)
    requires |s| == i + |d| + 1 + |f| && s[i..i + |d| + 1 + |f|] == d + "." + f
    ensures i < |s| && IsDigit(s[i]) && TokenAt(s, i) == d + "." + f
  {
    assert s[i] == d[0];
    TokenOfDecimal(s, i, d, f);
  }

  /** With the range passed over, a row laid out as `a-b 件 ¥d.f` gives quantity `a` and price `d.f`. */
  lemma RangeRowReadsPrice(s: string, a: string, b: string, d: string, f: string, m: nat)
    requires RangeRowPieces(a, b, d, f) && PricedRangeRow(s, a, b, d, f, m)
    ensures RangeRowTier(s).Some? && RangeRowTier(s).value.minQty == DigitsValue(a) && RangeRowTier(s).value.price == d + "." + f
  {
    PricedRangeParts(s, a, b, d, f, m);
    RangeLayoutTier(s, a, m + 4, d + "." + f);
  }
}
