/**
 * The price scraping of the DOM extractor, over the texts it reads. Every
 * numeral in the text of a price-class element that lies strictly between
 * 0.01 and 1 000 000 is a candidate and the smallest is the base price;
 * each tier-table row that the quantity and price pattern matches with a
 * positive quantity and a positive price gives a tier, and the tiers are
 * sorted by quantity. Numbers are exact: `parseFloat` and `parseInt` of a
 * numeral are its decimal value.
 */
module DomPrices {
  import opened Wrappers
  import opened Text
  import opened Js
  import opened Seqs
  import opened DomImageUrl

  /** A numeral `\d+\.?\d*` as the page wrote it; `DecimalValue` is its `parseFloat`. */
  type Decimal = s: string | DigitsDotDigits(s) witness "0"

  const NoPriceMessage := "Could not extract price from DOM"

  /** The unit words of the tier pattern: `件`, `pcs`, `pieces`. */
  const Units: seq<string> := ["\U{4EF6}", "pcs", "pieces"]

  datatype DomTier = DomTier(minQty: nat, price: Decimal)

  datatype DomPrices = DomPrices(basePrice: Decimal, tiers: seq<DomTier>)

  // ---------------------------------------------------------------------
  // numerals: `/(\d+\.?\d*)/g`

  /** Digits, a dot and digits make a numeral whose dot is the first one. */
  lemma DigitsDotDigitsJoin(d: string, e: string)
    requires AllDigits(d) && AllDigits(e)
    ensures IndexOf(d + "." + e, ".") == Some(|d|)
    ensures DigitsDotDigits(d + "." + e)
  {
    var s := d + "." + e;
    assert s[|d|..|d| + 1] == ".";
    assert OccursAt(s, ".", |d|);
    forall k: nat | k < |d|
      ensures !OccursAt(s, ".", k)
    {
      assert s[k] == d[k];
      assert s[k..k + 1][0] == s[k];
    }
    var r := IndexOf(s, ".");
    assert r.Some? && r.value <= |d|;
    assert r == Some(|d|);
    assert s[..|d|] == d && s[|d| + 1..] == e;
  }

  /** Where the digit run (`\d*`, greedy) starting at `i` ends. */
  function RunEnd(s: string, i: nat): (e: nat)
    requires i <= |s|
    ensures i <= e <= |s| && AllDigits(s[i..e])
    ensures e < |s| ==> !IsDigit(s[e])
    ensures i < |s| && IsDigit(s[i]) ==> i < e
    decreases |s| - i
  {
    if i < |s| && IsDigit(s[i]) then
      var e := RunEnd(s, i + 1);
      assert forall k :: 0 < k < e - i ==> s[i..e][k] == s[i + 1..e][k - 1];
      e
    else i
  }

  /** Where the numeral that `\d+\.?\d*` matches at `i` ends. */
  function TokenEnd(s: string, i: nat): (k: nat)
    requires i < |s| && IsDigit(s[i])
    ensures i < k <= |s| && DigitsDotDigits(s[i..k])
  {
    var j := RunEnd(s, i);
    if j < |s| && s[j] == '.' then
      var k := RunEnd(s, j + 1);
      DigitsDotDigitsJoin(s[i..j], s[j + 1..k]);
      assert s[i..k] == s[i..j] + "." + s[j + 1..k];
      k
    else
      NoDotInDigits(s[i..j]);
      j
  }

  /** The numeral that `\d+\.?\d*` matches at `i`, where a digit stands. */
  function TokenAt(s: string, i: nat): (r: Decimal)
    requires i < |s| && IsDigit(s[i])
    ensures r != [] && i + |r| <= |s| && r == s[i..i + |r|]
  {
    s[i..TokenEnd(s, i)]
  }

  /** `text.match(/(\d+\.?\d*)/g)` from `i` on: the numerals left to right (none for no match). */
  function NumberTokens(s: string, i: nat): seq<Decimal>
    decreases |s| - i
  {
    if i >= |s| then []
    else if IsDigit(s[i]) then
      var t := TokenAt(s, i);
      [t] + NumberTokens(s, i + |t|)
    else NumberTokens(s, i + 1)
  }

  /** `num > 0.01 && num < 1000000`. */
  predicate Plausible(t: Decimal) {
    0.01 < DecimalValue(t) < 1000000.0
  }

  /** The candidates one price element contributes, in order. */
  function Candidates(text: string): seq<Decimal> {
    Filter(NumberTokens(text, 0), Plausible)
  }

  /** The `prices` array after the walk over the price elements. */
  function KeptPrices(texts: seq<string>): seq<Decimal>
    decreases |texts|
  {
    if texts == [] then []
    else KeptPrices(texts[..|texts| - 1]) + Candidates(texts[|texts| - 1])
  }

  /** The least value among the candidates (the head of the sorted, de-duplicated list). */
  function MinPrice(ps: seq<Decimal>): (r: Decimal)
    requires ps != []
    ensures r in ps
    ensures forall k :: 0 <= k < |ps| ==> DecimalValue(r) <= DecimalValue(ps[k])
  {
    if |ps| == 1 then ps[0]
    else
      var m := MinPrice(ps[1..]);
      assert forall k :: 1 <= k < |ps| ==> ps[k] == ps[1..][k - 1];
      if DecimalValue(ps[0]) <= DecimalValue(m) then ps[0] else m
  }

  // ---------------------------------------------------------------------
  // tier rows: `/(\d+)[-≥\+]?\s*(?:件|pcs|pieces)?\s*[¥￥]?\s*(\d+\.?\d*)/i`

  /** `\s*` from `i`. */
  function SkipSpaces(s: string, i: nat): (r: nat)
    requires i <= |s|
    ensures i <= r <= |s| && (r < |s| ==> !IsSpace(s[r]))
    ensures forall k :: i <= k < r ==> IsSpace(s[k])
    decreases |s| - i
  {
    if i < |s| && IsSpace(s[i]) then SkipSpaces(s, i + 1) else i
  }

  predicate IsRangeSign(c: char) {
    c == '-' || c == '\U{2265}' || c == '+'
  }

  predicate IsYen(c: char) {
    c == '\U{00A5}' || c == '\U{FFE5}'
  }

  /**
   * `[-≥\+]?\s*(?:件|pcs|pieces)?\s*[¥￥]?\s*` from `j`, followed by a digit:
   * where that digit stands. None of the optional parts can stand in for
   * another, so taking each one when it is there is the only way through.
   */
  function GlueEnd(s: string, j: nat): (r: Option<nat>)
    requires j <= |s|
    ensures r.Some? ==> j <= r.value < |s| && IsDigit(s[r.value])
  {
    var a := if j < |s| && IsRangeSign(s[j]) then j + 1 else j;
    var b := SkipSpaces(s, a);
    var c := match MatchOneOf(s[b..], Units)
      case Some(u) => b + |u|
      case None => b;
    var d := SkipSpaces(s, c);
    var e := if d < |s| && IsYen(s[d]) then d + 1 else d;
    var f := SkipSpaces(s, e);
    if f < |s| && IsDigit(s[f]) then Some(f) else None
  }

  /**
   * The two groups of the tier pattern when the match starts at the digit
   * run at `i`. The greedy quantity takes the whole run when the glue leads
   * to a digit; otherwise it gives back its last digit, which then starts the
   * price. A one-digit run with no glue after it cannot match.
   */
  function RowMatchRun(s: string, i: nat): (r: Option<(string, Decimal)>)
    requires i < |s| && IsDigit(s[i])
    ensures r.Some? ==> r.value.0 != [] && AllDigits(r.value.0)
  {
    RunGroups(s, i, GlueEnd(s, RunEnd(s, i)))
  }

  /** The groups at the run at `i`, given where the glue after the whole run leads. */
  function RunGroups(s: string, i: nat, glue: Option<nat>): (r: Option<(string, Decimal)>)
    requires i < |s| && IsDigit(s[i])
    requires glue.Some? ==> glue.value < |s| && IsDigit(s[glue.value])
    ensures r.Some? ==> r.value.0 != [] && AllDigits(r.value.0)
  {
    var e := RunEnd(s, i);
    match glue
    case Some(q) => Some((s[i..e], TokenAt(s, q)))
    case None =>
      if e - i >= 2 then
        assert s[e - 1] == s[i..e][e - 1 - i];
        assert s[i..e - 1] == s[i..e][..e - 1 - i];
        assert forall k :: 0 <= k < e - 1 - i ==> s[i..e - 1][k] == s[i..e][k];
        assert AllDigits(s[i..e - 1]);
        Some((s[i..e - 1], TokenAt(s, e - 1)))
      else None
  }

  /** The leftmost match of the tier pattern from `i`: the search moves past runs that cannot match. */
  function RowMatchFrom(s: string, i: nat): (r: Option<(string, Decimal)>)
    ensures r.Some? ==> r.value.0 != [] && AllDigits(r.value.0)
    decreases |s| - i
  {
    if i >= |s| then None
    else if !IsDigit(s[i]) then RowMatchFrom(s, i + 1)
    else
      match RowMatchRun(s, i)
      case Some(m) => Some(m)
      case None => RowMatchFrom(s, RunEnd(s, i))
  }

  /** A row's tier: `parseInt` of the quantity and `parseFloat` of the price, both positive. */
  function RowTier(text: string): (r: Option<DomTier>)
    ensures r.Some? ==> r.value.minQty > 0 && DecimalValue(r.value.price) > 0.0
  {
    match RowMatchFrom(text, 0)
    case None => None
    case Some((g1, g2)) =>
      var q := DigitsValue(g1);
      if q > 0 && DecimalValue(g2) > 0.0 then Some(DomTier(q, g2)) else None
  }

  /** The `tiers` array after the walk over the rows. */
  function RowTiers(rows: seq<string>): seq<DomTier>
    decreases |rows|
  {
    if rows == [] then []
    else
      var init := RowTiers(rows[..|rows| - 1]);
      match RowTier(rows[|rows| - 1])
      case Some(t) => init + [t]
      case None => init
  }

  // ---------------------------------------------------------------------
  // `tiers.sort((a, b) => a.minQty - b.minQty)`, a stable sort

  /** `t` goes after every tier whose quantity is not larger. */
  function InsertByQty(t: DomTier, ys: seq<DomTier>): seq<DomTier>
    decreases |ys|
  {
    if ys == [] then [t]
    else if t.minQty < ys[0].minQty then [t] + ys
    else [ys[0]] + InsertByQty(t, ys[1..])
  }

  function SortByQty(xs: seq<DomTier>): seq<DomTier>
    decreases |xs|
  {
    if xs == [] then [] else InsertByQty(xs[|xs| - 1], SortByQty(xs[..|xs| - 1]))
  }

  predicate SortedByQty(xs: seq<DomTier>) {
    forall j, k :: 0 <= j < k < |xs| ==> xs[j].minQty <= xs[k].minQty
  }

  /** The tiers of quantity `q`. */
  function SameQty(q: nat): DomTier -> bool {
    (t: DomTier) => t.minQty == q
  }

  // ---------------------------------------------------------------------
  // the whole of the price step

  /** `extractPricesFromDOM()` over the price-element texts and the tier-row texts. */
  function PricesFromDom(priceTexts: seq<string>, rowTexts: seq<string>): Outcome<DomPrices> {
    var kept := KeptPrices(priceTexts);
    if kept == [] then Err(Thrown(NoPriceMessage))
    else
      var base := MinPrice(kept);
      var rows := RowTiers(rowTexts);
      Ok(DomPrices(base, if rows == [] then [DomTier(1, base)] else SortByQty(rows)))
  }

  /** The `matches.forEach` over one price element: the plausible numerals, in order. */
  method CandidatesOf(text: string) returns (kept: seq<Decimal>)
    ensures kept == Candidates(text)
  {
    var matches := NumberTokens(text, 0);
    kept := [];
    for m := 0 to |matches|
      invariant kept == Filter(matches[..m], Plausible)
    {
      assert matches[..m + 1] == matches[..m] + [matches[m]];
      FilterAppend(matches[..m], [matches[m]], Plausible);
      FilterOne(matches[m], Plausible);
      var num := matches[m];
      if Plausible(num) {
        kept := kept + [num];
      }
    }
    assert matches[..|matches|] == matches;
  }

  /** The walk over the price elements. */
  method CollectPrices(priceTexts: seq<string>) returns (prices: seq<Decimal>)
    ensures prices == KeptPrices(priceTexts)
  {
    prices := [];
    for k := 0 to |priceTexts|
      invariant prices == KeptPrices(priceTexts[..k])
    {
      var kept := CandidatesOf(priceTexts[k]);
      assert priceTexts[..k + 1][..k] == priceTexts[..k];
      prices := prices + kept;
    }
    assert priceTexts[..|priceTexts|] == priceTexts;
  }

  /** The walk over the tier rows. */
  method CollectRowTiers(rowTexts: seq<string>) returns (tiers: seq<DomTier>)
    ensures tiers == RowTiers(rowTexts)
  {
    tiers := [];
    for k := 0 to |rowTexts|
      invariant tiers == RowTiers(rowTexts[..k])
    {
      assert rowTexts[..k + 1][..k] == rowTexts[..k];
      var found := RowMatchFrom(rowTexts[k], 0);
      if found.Some? {
        var minQty := DigitsValue(found.value.0);
        var price := found.value.1;
        if minQty > 0 && DecimalValue(price) > 0.0 {
          tiers := tiers + [DomTier(minQty, price)];
        }
      }
    }
    assert rowTexts[..|rowTexts|] == rowTexts;
  }

  method ExtractPricesFromDom(priceTexts: seq<string>, rowTexts: seq<string>) returns (r: Outcome<DomPrices>)
    ensures r == PricesFromDom(priceTexts, rowTexts)
  {
    var prices := CollectPrices(priceTexts);
    var tiers := CollectRowTiers(rowTexts);
    if prices == [] {
      return Err(Thrown(NoPriceMessage));
    }
    var basePrice := MinPrice(prices);
    if tiers == [] {
      tiers := [DomTier(1, basePrice)];
    } else {
      tiers := SortByQty(tiers);
    }
    return Ok(DomPrices(basePrice, tiers));
  }

  // ---------------------------------------------------------------------
  // properties

  /** The filter over one element. */
  lemma FilterOne<T>(x: T, p: T -> bool)
    ensures Filter([x], p) == if p(x) then [x] else []
  {
    assert [x][1..] == [];
  }

  /** `t` is a numeral of one of the texts. */
  ghost predicate NumeralOf(t: Decimal, texts: seq<string>) {
    exists j :: 0 <= j < |texts| && t in NumberTokens(texts[j], 0)
  }

  /** Every kept price is plausible and is a numeral of some price text. */
  lemma {:induction false} KeptPricesFrom(texts: seq<string>)
    ensures forall k :: 0 <= k < |KeptPrices(texts)| ==> Plausible(KeptPrices(texts)[k])
    ensures forall k :: 0 <= k < |KeptPrices(texts)| ==> NumeralOf(KeptPrices(texts)[k], texts)
    decreases |texts|
  {
    if texts != [] {
      var n := |texts| - 1;
      var init := texts[..n];
      KeptPricesFrom(init);
      var a := KeptPrices(init);
      var b := Candidates(texts[n]);
      assert KeptPrices(texts) == a + b;
      forall k | 0 <= k < |a + b|
        ensures Plausible((a + b)[k]) && NumeralOf((a + b)[k], texts)
      {
        if k < |a| {
          assert (a + b)[k] == a[k];
          assert NumeralOf(a[k], init);
          var j :| 0 <= j < |init| && a[k] in NumberTokens(init[j], 0);
          assert texts[j] == init[j];
        } else {
          assert (a + b)[k] == b[k - |a|];
          assert b[k - |a|] in NumberTokens(texts[n], 0);
        }
      }
    }
  }

  /** Every plausible numeral of every price text is kept. */
  lemma {:induction false} KeptPricesComplete(texts: seq<string>, j: nat, t: Decimal)
    requires j < |texts| && t in NumberTokens(texts[j], 0) && Plausible(t)
    ensures t in KeptPrices(texts)
    decreases |texts|
  {
    var init := texts[..|texts| - 1];
    var ts := NumberTokens(texts[j], 0);
    if j == |texts| - 1 {
      var i :| 0 <= i < |ts| && ts[i] == t;
      assert t in Candidates(texts[j]);
    } else {
      assert init[j] == texts[j];
      KeptPricesComplete(init, j, t);
    }
  }

  /** Every accepted row gives a tier with a positive quantity and a positive price. */
  lemma {:induction false} RowTiersPositive(rows: seq<string>)
    ensures forall k :: 0 <= k < |RowTiers(rows)| ==>
      RowTiers(rows)[k].minQty > 0 && DecimalValue(RowTiers(rows)[k].price) > 0.0
    decreases |rows|
  {
    if rows != [] {
      RowTiersPositive(rows[..|rows| - 1]);
    }
  }

  /** No tier below quantity `m`. */
  predicate AtLeast(xs: seq<DomTier>, m: nat) {
    forall k :: 0 <= k < |xs| ==> xs[k].minQty >= m
  }

  lemma {:induction false} InsertByQtyPerm(t: DomTier, ys: seq<DomTier>)
    ensures multiset(InsertByQty(t, ys)) == multiset(ys) + multiset{t}
    decreases |ys|
  {
    if ys != [] && t.minQty >= ys[0].minQty {
      InsertByQtyPerm(t, ys[1..]);
      assert ys == [ys[0]] + ys[1..];
    }
  }

  lemma {:induction false} InsertByQtyAtLeast(t: DomTier, ys: seq<DomTier>, m: nat)
    requires AtLeast(ys, m) && t.minQty >= m
    ensures AtLeast(InsertByQty(t, ys), m)
    decreases |ys|
  {
    if ys != [] && t.minQty >= ys[0].minQty {
      InsertByQtyAtLeast(t, ys[1..], m);
      var rest := InsertByQty(t, ys[1..]);
      assert forall k :: 1 <= k < 1 + |rest| ==> ([ys[0]] + rest)[k] == rest[k - 1];
    }
  }

  lemma SortedCons(x: DomTier, rest: seq<DomTier>)
    requires SortedByQty(rest) && AtLeast(rest, x.minQty)
    ensures SortedByQty([x] + rest)
  {
    assert forall k :: 1 <= k < 1 + |rest| ==> ([x] + rest)[k] == rest[k - 1];
  }

  lemma SortedTail(ys: seq<DomTier>)
    requires SortedByQty(ys) && ys != []
    ensures SortedByQty(ys[1..]) && AtLeast(ys[1..], ys[0].minQty)
  {
    assert forall k :: 0 <= k < |ys[1..]| ==> ys[1..][k] == ys[k + 1];
  }

  lemma {:induction false} InsertByQtySorted(t: DomTier, ys: seq<DomTier>)
    requires SortedByQty(ys)
    ensures SortedByQty(InsertByQty(t, ys))
    decreases |ys|
  {
    if ys == [] {
    } else if t.minQty < ys[0].minQty {
      assert AtLeast(ys, t.minQty);
      SortedCons(t, ys);
    } else {
      SortedTail(ys);
      InsertByQtySorted(t, ys[1..]);
      InsertByQtyAtLeast(t, ys[1..], ys[0].minQty);
      SortedCons(ys[0], InsertByQty(t, ys[1..]));
    }
  }

  /** The sort orders the tiers by quantity and keeps them all. */
  lemma {:induction false} SortByQtySorted(xs: seq<DomTier>)
    ensures SortedByQty(SortByQty(xs))
    ensures multiset(SortByQty(xs)) == multiset(xs)
    decreases |xs|
  {
    if xs != [] {
      var init := xs[..|xs| - 1];
      SortByQtySorted(init);
      InsertByQtySorted(xs[|xs| - 1], SortByQty(init));
      InsertByQtyPerm(xs[|xs| - 1], SortByQty(init));
      assert xs == init + [xs[|xs| - 1]];
    }
  }

  /** With no element kept the filter is empty. */
  lemma FilterNone(s: seq<DomTier>, p: DomTier -> bool)
    requires forall k :: 0 <= k < |s| ==> !p(s[k])
    ensures Filter(s, p) == []
  {
  }

  /** Inserting in front of a sorted list whose head is larger than `t`. */
  lemma InsertInFront(t: DomTier, ys: seq<DomTier>, q: nat)
    requires SortedByQty(ys) && ys != [] && t.minQty < ys[0].minQty
    ensures Filter([t] + ys, SameQty(q)) == Filter(ys, SameQty(q)) + Filter([t], SameQty(q))
  {
    var p := SameQty(q);
    FilterAppend([t], ys, p);
    FilterOne(t, p);
    if t.minQty == q {
      assert forall k :: 0 <= k < |ys| ==> ys[0].minQty <= ys[k].minQty;
      FilterNone(ys, p);
    }
  }

  /** Inserting behind the head: the head's contribution comes first on both sides. */
  lemma InsertBehind(y: DomTier, t: DomTier, ys: seq<DomTier>, rest: seq<DomTier>, q: nat)
    requires Filter(rest, SameQty(q)) == Filter(ys, SameQty(q)) + Filter([t], SameQty(q))
    ensures Filter([y] + rest, SameQty(q)) == Filter([y] + ys, SameQty(q)) + Filter([t], SameQty(q))
  {
    var p := SameQty(q);
    FilterAppend([y], rest, p);
    FilterAppend([y], ys, p);
  }

  /** The tiers of quantity `q` after inserting `t`: those before, then `t` when it has that quantity. */
  lemma {:induction false} InsertByQtyStable(t: DomTier, ys: seq<DomTier>, q: nat)
    requires SortedByQty(ys)
    ensures Filter(InsertByQty(t, ys), SameQty(q)) == Filter(ys, SameQty(q)) + Filter([t], SameQty(q))
    decreases |ys|
  {
    if ys == [] {
      assert [t] == [] + [t];
    } else if t.minQty < ys[0].minQty {
      InsertInFront(t, ys, q);
    } else {
      SortedTail(ys);
      InsertByQtyStable(t, ys[1..], q);
      InsertBehind(ys[0], t, ys[1..], InsertByQty(t, ys[1..]), q);
      assert ys == [ys[0]] + ys[1..];
    }
  }

  /** The sort is stable: the tiers of each quantity keep their order. */
  lemma {:induction false} SortByQtyStable(xs: seq<DomTier>, q: nat)
    ensures Filter(SortByQty(xs), SameQty(q)) == Filter(xs, SameQty(q))
    decreases |xs|
  {
    if xs != [] {
      var init := xs[..|xs| - 1];
      var last := xs[|xs| - 1];
      var p := SameQty(q);
      SortByQtySorted(init);
      calc {
        Filter(SortByQty(xs), p);
        Filter(InsertByQty(last, SortByQty(init)), p);
        { InsertByQtyStable(last, SortByQty(init), q); }
        Filter(SortByQty(init), p) + Filter([last], p);
        { SortByQtyStable(init, q); }
        Filter(init, p) + Filter([last], p);
        { FilterAppend(init, [last], p); }
        Filter(init + [last], p);
        { assert init + [last] == xs; }
        Filter(xs, p);
      }
    }
  }

  /**
   * The price step fails exactly when no plausible numeral was found, with
   * its own message; otherwise the base price is the least candidate, the
   * tiers are positive and sorted by quantity, and they are the accepted rows
   * (in a stable order) or, with none, the single tier of quantity 1 at the
   * base price.
   */
  lemma PricesFromDomShape(priceTexts: seq<string>, rowTexts: seq<string>)
    ensures PricesFromDom(priceTexts, rowTexts).Err? <==> KeptPrices(priceTexts) == []
    ensures PricesFromDom(priceTexts, rowTexts).Err? ==>
      PricesFromDom(priceTexts, rowTexts).error == Thrown(NoPriceMessage)
    ensures PricesFromDom(priceTexts, rowTexts).Ok? ==>
      var p := PricesFromDom(priceTexts, rowTexts).value;
      var kept := KeptPrices(priceTexts);
      p.basePrice in kept && Plausible(p.basePrice)
      && (forall k :: 0 <= k < |kept| ==> DecimalValue(p.basePrice) <= DecimalValue(kept[k]))
      && p.tiers != [] && SortedByQty(p.tiers)
      && (forall k :: 0 <= k < |p.tiers| ==> p.tiers[k].minQty > 0 && DecimalValue(p.tiers[k].price) > 0.0)
    ensures PricesFromDom(priceTexts, rowTexts).Ok? && RowTiers(rowTexts) == [] ==>
      PricesFromDom(priceTexts, rowTexts).value.tiers
        == [DomTier(1, PricesFromDom(priceTexts, rowTexts).value.basePrice)]
    ensures PricesFromDom(priceTexts, rowTexts).Ok? && RowTiers(rowTexts) != [] ==>
      var tiers := PricesFromDom(priceTexts, rowTexts).value.tiers;
      multiset(tiers) == multiset(RowTiers(rowTexts))
      && forall q: nat :: Filter(tiers, SameQty(q)) == Filter(RowTiers(rowTexts), SameQty(q))
  {
    var kept := KeptPrices(priceTexts);
    if kept != [] {
      KeptPricesFrom(priceTexts);
      var base := MinPrice(kept);
      var i :| 0 <= i < |kept| && kept[i] == base;
      assert Plausible(base);
      var rows := RowTiers(rowTexts);
      if rows != [] {
        SortedRowTiers(rowTexts);
      }
    }
  }

  /** The sorted tiers: ordered, the same tiers, each positive, each quantity's tiers in row order. */
  lemma SortedRowTiers(rowTexts: seq<string>)
    ensures var rows := RowTiers(rowTexts);
      var sorted := SortByQty(rows);
      SortedByQty(sorted) && multiset(sorted) == multiset(rows)
      && (forall k :: 0 <= k < |sorted| ==> sorted[k].minQty > 0 && DecimalValue(sorted[k].price) > 0.0)
      && forall q: nat :: Filter(sorted, SameQty(q)) == Filter(rows, SameQty(q))
  {
    var rows := RowTiers(rowTexts);
    RowTiersPositive(rowTexts);
    SortByQtySorted(rows);
    var sorted := SortByQty(rows);
    forall k | 0 <= k < |sorted|
      ensures sorted[k].minQty > 0 && DecimalValue(sorted[k].price) > 0.0
    {
      assert sorted[k] in multiset(rows);
    }
    forall q: nat
      ensures Filter(sorted, SameQty(q)) == Filter(rows, SameQty(q))
    {
      SortByQtyStable(rows, q);
    }
  }
}
