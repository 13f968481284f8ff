/**
 * `normalize1688Product`: a loosely typed raw record becomes a product of
 * fixed shape. Every field is read through an ordered list of aliases, the
 * price tiers, SKUs and images through an ordered list of strategies where
 * the first one that yields anything wins, and the required fields throw
 * when nothing is found. The assembled record is then checked against the
 * product schema.
 */
module Normalizer {
  import opened Wrappers
  import opened Text
  import opened Js
  import opened Seqs
  import opened Urls
  import opened Oracles
  import opened ProductSchema

  /** The raw record: the fields of a plain object, in insertion order. */
  type Raw = seq<(string, Json)>

  const IdKeys: seq<string> := ["offerId", "productId", "id"]
  const TitleKeys: seq<string> := ["subject", "title", "offerTitle", "productName"]

  const NoIdMessage := "Could not extract product ID"
  const NoTitleMessage := "Product title not found"
  const NoPriceMessage := "No price information found"
  const NoImagesMessage := "No product images found"

  // =====================================================================
  // Alias lookups

  /** The first alias whose value is truthy, else `undefined`: `raw.a || raw.b || undefined`. */
  function FirstTruthy(raw: Raw, keys: seq<string>): (r: Value)
    ensures r.None? || Truthy(r)
    ensures r.None? <==> forall k :: 0 <= k < |keys| ==> !Truthy(Lookup(raw, keys[k]))
    ensures r.Some? ==> exists k ::
              0 <= k < |keys| && r == Lookup(raw, keys[k]) && forall j :: 0 <= j < k ==> !Truthy(Lookup(raw, keys[j]))
    decreases |keys|
  {
    if keys == [] then None
    else
      var v := Lookup(raw, keys[0]);
      if Truthy(v) then v
      else
        var r := FirstTruthy(raw, keys[1..]);
        assert forall k :: 1 <= k < |keys| ==> keys[1..][k - 1] == keys[k];
        r
  }

  /** The alias lookup is the `||` chain of the aliases ending in `undefined`. */
  lemma {:induction false} FirstTruthyIsOrChain(raw: Raw, keys: seq<string>)
    ensures FirstTruthy(raw, keys) == OrChain(seq(|keys|, k requires 0 <= k < |keys| => Lookup(raw, keys[k])) + [None])
    decreases |keys|
  {
    var vs := seq(|keys|, k requires 0 <= k < |keys| => Lookup(raw, keys[k])) + [None];
    if keys != [] {
      FirstTruthyIsOrChain(raw, keys[1..]);
      var ws := seq(|keys[1..]|, k requires 0 <= k < |keys[1..]| => Lookup(raw, keys[1..][k])) + [None];
      assert vs[1..] == ws;
    }
  }

  /** `String(v)` of a truthy alias, else `undefined`. */
  function StringOf(v: Value): Option<string> {
    match v
    case None => None
    case Some(j) => Some(JsonToStr(j))
  }

  /** `Number(v)` of a truthy alias, else `undefined`. */
  function NumberOf(v: Value): Option<Number> {
    match v
    case None => None
    case Some(j) => Some(ToNumber(Some(j)))
  }

  /** `v ? Number(v) : undefined`. */
  function NumberIf(v: Value): Option<Number> {
    if Truthy(v) then Some(ToNumber(v)) else None
  }

  /** `a || b || undefined`. */
  function OrUndefined(a: Value, b: Value): (r: Value)
    ensures r.None? || Truthy(r)
  {
    if Truthy(a) then a else if Truthy(b) then b else None
  }

  // =====================================================================
  // Product id, title, description and the optional fields

  /** `extractProductId(raw, url)`. */
  function ProductIdOf(raw: Raw, url: string): (r: Outcome<string>)
    ensures r.Err? <==> FirstTruthy(raw, IdKeys).None? && OfferId(url).None?
    ensures r.Err? ==> r.error == Thrown(NoIdMessage)
    ensures FirstTruthy(raw, IdKeys).None? && OfferId(url).Some? ==> r == Ok(OfferId(url).value)
  {
    match FirstTruthy(raw, IdKeys)
    case Some(j) => Ok(JsonToStr(j))
    case None =>
      match OfferId(url)
      case Some(d) => Ok(d)
      case None => Err(Thrown(NoIdMessage))
  }

  /** With no id field the id of a canonical product page comes from its URL. */
  lemma ProductIdFromDetailUrl(raw: Raw, id: string)
    requires id != [] && AllDigits(id)
    requires forall k :: 0 <= k < |IdKeys| ==> !Truthy(Lookup(raw, IdKeys[k]))
    ensures ProductIdOf(raw, "https://detail.1688.com/offer/" + id + ".html") == Ok(id)
  {
    DetailPageOfferId(id);
  }

  /** A string id field is taken as it is. */
  lemma ProductIdFromField(raw: Raw, key: string, id: string)
    requires key in IdKeys && Lookup(raw, key) == Some(JStr(id)) && id != []
    requires forall k :: 0 <= k < |IdKeys| && IdKeys[k] != key ==> Lookup(raw, IdKeys[k]).None?
    ensures forall url :: ProductIdOf(raw, url) == Ok(id)
  {
  }

  /** `extractTitle(raw)`: the first truthy title alias, as a string, trimmed. */
  function TitleOf(raw: Raw): (r: Outcome<string>)
    ensures r.Err? <==> FirstTruthy(raw, TitleKeys).None?
    ensures r.Err? ==> r.error == Thrown(NoTitleMessage)
    ensures r.Ok? ==> Trim(r.value) == r.value
  {
    match FirstTruthy(raw, TitleKeys)
    case None => Err(Thrown(NoTitleMessage))
    case Some(j) =>
      TrimIdempotent(JsonToStr(j));
      Ok(Trim(JsonToStr(j)))
  }

  function Description(raw: Raw): Option<string> {
    StringOf(FirstTruthy(raw, ["description", "desc"]))
  }

  function Weight(raw: Raw): Option<Number> {
    NumberOf(FirstTruthy(raw, ["weight", "netWeight", "grossWeight"]))
  }

  function ShippingTemplateId(raw: Raw): Value {
    FirstTruthy(raw, ["freightTemplateId", "shippingTemplateId"])
  }

  function SupplierId(raw: Raw): Value {
    FirstTruthy(raw, ["sellerId", "supplierId", "memberId"])
  }

  function SupplierName(raw: Raw): Value {
    FirstTruthy(raw, ["sellerName", "supplierName", "companyName"])
  }

  function CategoryId(raw: Raw): Value {
    FirstTruthy(raw, ["categoryId", "catId"])
  }

  function CategoryName(raw: Raw): Value {
    FirstTruthy(raw, ["categoryName", "catName"])
  }

  /** The weight is the first truthy of `weight`, `netWeight`, `grossWeight`, as a number. */
  lemma WeightOrder(raw: Raw)
    ensures Truthy(Lookup(raw, "weight")) ==> Weight(raw) == Some(ToNumber(Lookup(raw, "weight")))
    ensures !Truthy(Lookup(raw, "weight")) && Truthy(Lookup(raw, "netWeight")) ==>
      Weight(raw) == Some(ToNumber(Lookup(raw, "netWeight")))
    ensures !Truthy(Lookup(raw, "weight")) && !Truthy(Lookup(raw, "netWeight")) && Truthy(Lookup(raw, "grossWeight")) ==>
      Weight(raw) == Some(ToNumber(Lookup(raw, "grossWeight")))
    ensures Weight(raw).None? <==>
      !Truthy(Lookup(raw, "weight")) && !Truthy(Lookup(raw, "netWeight")) && !Truthy(Lookup(raw, "grossWeight"))
  {
    var keys := ["weight", "netWeight", "grossWeight"];
    assert keys[0] == "weight" && keys[1] == "netWeight" && keys[2] == "grossWeight";
  }

  /** The supplier name is the first truthy of `sellerName`, `supplierName`, `companyName`. */
  lemma SupplierNameOrder(raw: Raw)
    ensures Truthy(Lookup(raw, "sellerName")) ==> SupplierName(raw) == Lookup(raw, "sellerName")
    ensures !Truthy(Lookup(raw, "sellerName")) && Truthy(Lookup(raw, "supplierName")) ==>
      SupplierName(raw) == Lookup(raw, "supplierName")
    ensures !Truthy(Lookup(raw, "sellerName")) && !Truthy(Lookup(raw, "supplierName")) ==>
      SupplierName(raw) == OrUndefined(Lookup(raw, "companyName"), None)
  {
    var keys := ["sellerName", "supplierName", "companyName"];
    assert keys[0] == "sellerName" && keys[1] == "supplierName" && keys[2] == "companyName";
  }

  // =====================================================================
  // Price tiers

  /** `Number(tier.startQuantity || tier.begin || 1)`. */
  function MinQtyOf(tier: Json): Number {
    ToNumber(OrChain([Get(tier, "startQuantity"), Get(tier, "begin"), Some(JNum("1"))]))
  }

  /** `tier.endQuantity || tier.end ? Number(tier.endQuantity || tier.end) : undefined`. */
  function MaxQtyOf(tier: Json): Option<Number> {
    NumberIf(Or(Get(tier, "endQuantity"), Get(tier, "end")))
  }

  /** The tier pushed for a `priceRange` element. */
  function TierOf(tier: Json): PriceTier {
    PriceTier(MinQtyOf(tier), MaxQtyOf(tier), ToNumber(Or(Get(tier, "price"), Get(tier, "value"))))
  }

  /** One `priceRange` element; reading a property of null throws. */
  function RangeTier(tier: Json): Outcome<seq<PriceTier>> {
    if tier.JNull? then Err(TypeError) else Ok([TierOf(tier)])
  }

  /** One `skuPrices` element: a tier of quantity 1 when its price is truthy. */
  function SkuPriceTier(sku: Json): Outcome<seq<PriceTier>> {
    if sku.JNull? then Err(TypeError)
    else
      var p := Get(sku, "price");
      if Truthy(p) then Ok([PriceTier(Finite(1.0), None, ToNumber(p))]) else Ok([])
  }

  /** A single tier of quantity 1 at the price `v`. */
  function SimpleTier(v: Value): PriceTier {
    PriceTier(Finite(1.0), None, ToNumber(v))
  }

  /** `extractPriceTiers(raw)`: the strategies in order; the first that yields a tier wins. */
  function PriceTiers(raw: Raw): (r: Outcome<seq<PriceTier>>)
    ensures r.Ok? ==> |r.value| >= 1
  {
    var priceRange := Lookup(raw, "priceRange");
    var a :- if IsArray(priceRange) then Collect(Items(priceRange), RangeTier) else Ok([]);
    var skuPrices := Lookup(raw, "skuPrices");
    var b :- if IsArray(skuPrices) && a == [] then Collect(Items(skuPrices), SkuPriceTier) else Ok(a);
    var p := Or(Lookup(raw, "price"), Lookup(raw, "salePrice"));
    var c := if b == [] && Truthy(p) then [SimpleTier(p)] else b;
    var q := Or(Lookup(raw, "consignPrice"), Lookup(raw, "referencePrice"));
    var d := if c == [] && Truthy(q) then [SimpleTier(q)] else c;
    if d == [] then Err(Thrown(NoPriceMessage)) else Ok(d)
  }

  /** The `priceRange.forEach` loop. */
  method CollectRangeTiers(items: seq<Json>) returns (r: Outcome<seq<PriceTier>>)
    ensures r == Collect(items, RangeTier)
  {
    var tiers: seq<PriceTier> := [];
    var k := 0;
    assert items[k..] == items;
    PrependNil(Collect(items, RangeTier));
    while k < |items|
      invariant 0 <= k <= |items|
      invariant Collect(items, RangeTier) == Prepend(tiers, Collect(items[k..], RangeTier))
    {
      var tier := items[k];
      if tier.JNull? {
        assert items[k..][0] == tier;
        return Err(TypeError);
      }
      var next := TierOf(tier);
      CollectStep(items, k, RangeTier, tiers, [next]);
      tiers := tiers + [next];
      k := k + 1;
    }
    assert items[k..] == [];
    assert tiers + [] == tiers;
    return Ok(tiers);
  }

  /** The `skuPrices.forEach` loop. */
  method CollectSkuPriceTiers(items: seq<Json>) returns (r: Outcome<seq<PriceTier>>)
    ensures r == Collect(items, SkuPriceTier)
  {
    var tiers: seq<PriceTier> := [];
    var k := 0;
    assert items[k..] == items;
    PrependNil(Collect(items, SkuPriceTier));
    while k < |items|
      invariant 0 <= k <= |items|
      invariant Collect(items, SkuPriceTier) == Prepend(tiers, Collect(items[k..], SkuPriceTier))
    {
      var sku := items[k];
      if sku.JNull? {
        assert items[k..][0] == sku;
        return Err(TypeError);
      }
      var price := Get(sku, "price");
      if Truthy(price) {
        var next := PriceTier(Finite(1.0), None, ToNumber(price));
        CollectStep(items, k, SkuPriceTier, tiers, [next]);
        tiers := tiers + [next];
      } else {
        CollectStep(items, k, SkuPriceTier, tiers, []);
        assert tiers + [] == tiers;
      }
      k := k + 1;
    }
    assert items[k..] == [];
    assert tiers + [] == tiers;
    return Ok(tiers);
  }

  method ExtractPriceTiers(raw: Raw) returns (r: Outcome<seq<PriceTier>>)
    ensures r == PriceTiers(raw)
  {
    var tiers: seq<PriceTier> := [];
    var priceRange := Lookup(raw, "priceRange");
    if IsArray(priceRange) {
      var fromRange := CollectRangeTiers(priceRange.value.items);
      if fromRange.Err? {
        return Err(fromRange.error);
      }
      tiers := fromRange.value;
    }
    var skuPrices := Lookup(raw, "skuPrices");
    if IsArray(skuPrices) && tiers == [] {
      var fromSkus := CollectSkuPriceTiers(skuPrices.value.items);
      if fromSkus.Err? {
        return Err(fromSkus.error);
      }
      tiers := fromSkus.value;
    }
    var p := Or(Lookup(raw, "price"), Lookup(raw, "salePrice"));
    if tiers == [] && Truthy(p) {
      tiers := [SimpleTier(p)];
    }
    var q := Or(Lookup(raw, "consignPrice"), Lookup(raw, "referencePrice"));
    if tiers == [] && Truthy(q) {
      tiers := [SimpleTier(q)];
    }
    if tiers == [] {
      return Err(Thrown(NoPriceMessage));
    }
    return Ok(tiers);
  }

  /** A non-empty `priceRange` decides alone: one tier per element, in order. */
  lemma PriceRangeWins(raw: Raw)
    requires IsArray(Lookup(raw, "priceRange")) && Items(Lookup(raw, "priceRange")) != []
    requires PriceTiers(raw).Ok?
    ensures var items := Items(Lookup(raw, "priceRange"));
      |PriceTiers(raw).value| == |items|
      && forall k :: 0 <= k < |items| ==>
        PriceTiers(raw).value[k].minQty == MinQtyOf(items[k])
        && PriceTiers(raw).value[k].maxQty == MaxQtyOf(items[k])
  {
    var items := Items(Lookup(raw, "priceRange"));
    CollectOnePerElement(items, RangeTier);
  }

  /** Without `startQuantity` or `begin` a tier starts at quantity 1. */
  lemma MinQtyDefault(tier: Json)
    requires !Truthy(Get(tier, "startQuantity")) && !Truthy(Get(tier, "begin"))
    ensures MinQtyOf(tier) == Finite(1.0)
  {
    NumberOfNatString(1);
    assert NatToString(1) == "1";
  }

  /** Every fallback after `priceRange` yields tiers of quantity 1 with no upper bound. */
  lemma FallbackTiersStartAtOne(raw: Raw)
    requires !IsArray(Lookup(raw, "priceRange")) || Items(Lookup(raw, "priceRange")) == []
    requires PriceTiers(raw).Ok?
    ensures forall k :: 0 <= k < |PriceTiers(raw).value| ==>
      PriceTiers(raw).value[k].minQty == Finite(1.0) && PriceTiers(raw).value[k].maxQty.None?
  {
    var skuPrices := Lookup(raw, "skuPrices");
    if IsArray(skuPrices) && Collect(Items(skuPrices), SkuPriceTier).Ok? {
      var xs := Items(skuPrices);
      var ts := Collect(xs, SkuPriceTier).value;
      forall j | 0 <= j < |ts|
        ensures ts[j].minQty == Finite(1.0) && ts[j].maxQty.None?
      {
        CollectFrom(xs, SkuPriceTier, j);
      }
    }
  }

  /** A price walk can only fail on a null element. */
  lemma PriceWalkErrors(items: seq<Json>)
    ensures Collect(items, RangeTier).Err? ==> Collect(items, RangeTier).error == TypeError
    ensures Collect(items, SkuPriceTier).Err? ==> Collect(items, SkuPriceTier).error == TypeError
  {
    if Collect(items, RangeTier).Err? {
      CollectErrorFrom(items, RangeTier);
    }
    if Collect(items, SkuPriceTier).Err? {
      CollectErrorFrom(items, SkuPriceTier);
    }
  }

  /** Price tiers fail only by reading a null element, or with "No price information found". */
  lemma PriceTierErrors(raw: Raw)
    ensures PriceTiers(raw).Err? ==> PriceTiers(raw).error in {TypeError, Thrown(NoPriceMessage)}
  {
    PriceWalkErrors(Items(Lookup(raw, "priceRange")));
    PriceWalkErrors(Items(Lookup(raw, "skuPrices")));
  }

  /**
   * "No price information found" is thrown exactly when no strategy yields
   * a tier and nothing threw before.
   */
  lemma NoPriceInformation(raw: Raw)
    ensures PriceTiers(raw) == Err(Thrown(NoPriceMessage)) <==>
      (!IsArray(Lookup(raw, "priceRange")) || Items(Lookup(raw, "priceRange")) == [])
      && (!IsArray(Lookup(raw, "skuPrices")) || Collect(Items(Lookup(raw, "skuPrices")), SkuPriceTier) == Ok([]))
      && !Truthy(Or(Lookup(raw, "price"), Lookup(raw, "salePrice")))
      && !Truthy(Or(Lookup(raw, "consignPrice"), Lookup(raw, "referencePrice")))
  {
    var priceRange := Lookup(raw, "priceRange");
    PriceWalkErrors(Items(priceRange));
    PriceWalkErrors(Items(Lookup(raw, "skuPrices")));
    if IsArray(priceRange) && Items(priceRange) != [] && Collect(Items(priceRange), RangeTier).Ok? {
      CollectOnePerElement(Items(priceRange), RangeTier);
    }
  }

  // =====================================================================
  // SKU variations

  /** The attribute name 规格 ("specification"). */
  const SpecKey := "\U{89C4}\U{683C}"

  /** `parseSpecAttrs(specAttrs)`: no attributes, or the whole value under 规格. */
  function ParseSpecAttrs(specAttrs: Value): Attributes {
    if Truthy(specAttrs) then [(SpecKey, specAttrs)] else []
  }

  /** `name.trim().toLowerCase()`. */
  function TrimLower(s: string): string {
    Lower(Trim(s))
  }

  /** The target and the trimmed, lower-cased key contain one another. */
  predicate Overlap(target: string, key: string) {
    var nk := TrimLower(key);
    Contains(target, nk) || Contains(nk, target)
  }

  /** The first entry whose trimmed, lower-cased name is `n`. */
  function SameNameIndex(es: seq<(string, Json)>, n: string): (r: Option<nat>)
    ensures r.Some? ==> r.value < |es| && TrimLower(es[r.value].0) == n
    ensures r.Some? ==> forall k :: 0 <= k < r.value ==> TrimLower(es[k].0) != n
    ensures r.None? ==> forall k :: 0 <= k < |es| ==> TrimLower(es[k].0) != n
  {
    FirstIndex(es, (e: (string, Json)) => TrimLower(e.0) == n)
  }

  /** The first entry whose trimmed, lower-cased name overlaps `n`. */
  function PartialIndex(es: seq<(string, Json)>, n: string): (r: Option<nat>)
    ensures r.Some? ==> r.value < |es| && Overlap(n, es[r.value].0)
    ensures r.Some? ==> forall k :: 0 <= k < r.value ==> !Overlap(n, es[k].0)
    ensures r.None? ==> forall k :: 0 <= k < |es| ==> !Overlap(n, es[k].0)
  {
    FirstIndex(es, (e: (string, Json)) => Overlap(n, e.0))
  }

  /**
   * `findImageForSKUName(skuName, skuImages)`: nothing without an image
   * object; otherwise the exact key if its value is truthy, then the first
   * equal name, then the first overlapping name (trimmed and lower-cased).
   * A name that is not a string throws once the exact key misses.
   */
  function ImageForSKUName(skuName: Value, skuImages: Value): Outcome<Value> {
    if !Truthy(skuImages) || !TypeofObject(skuImages) then Ok(None)
    else
      var es := Entries(skuImages.value);
      var direct := Lookup(es, ToStr(skuName));
      if Truthy(direct) then Ok(direct)
      else if !(skuName.Some? && skuName.value.JStr?) then Err(TypeError)
      else
        var n := TrimLower(skuName.value.s);
        match SameNameIndex(es, n)
        case Some(k) => Ok(Some(es[k].1))
        case None =>
          match PartialIndex(es, n)
          case Some(k) => Ok(Some(es[k].1))
          case None => Ok(None)
  }

  /** Only the first equal name, or None when no name is equal, meets the contract of `SameNameIndex`. */
  lemma SameNameIndexUnique(es: seq<(string, Json)>, n: string, r: Option<nat>)
    requires r.Some? ==> r.value < |es| && TrimLower(es[r.value].0) == n
    requires forall k :: 0 <= k < |es| && (r.None? || k < r.value) ==> TrimLower(es[k].0) != n
    ensures r == SameNameIndex(es, n)
  {
  }

  lemma PartialIndexUnique(es: seq<(string, Json)>, n: string, r: Option<nat>)
    requires r.Some? ==> r.value < |es| && Overlap(n, es[r.value].0)
    requires forall k :: 0 <= k < |es| && (r.None? || k < r.value) ==> !Overlap(n, es[k].0)
    ensures r == PartialIndex(es, n)
  {
  }

  /** The first `for ... of Object.entries(skuImages)` loop. */
  method SearchSameName(es: seq<(string, Json)>, normalizedName: string) returns (r: Option<nat>)
    ensures r == SameNameIndex(es, normalizedName)
  {
    var k := 0;
    while k < |es| && TrimLower(es[k].0) != normalizedName
      invariant 0 <= k <= |es|
      invariant forall m :: 0 <= m < k ==> TrimLower(es[m].0) != normalizedName
    {
      k := k + 1;
    }
    r := if k < |es| then Some(k) else None;
    SameNameIndexUnique(es, normalizedName, r);
  }

  /** The second `for ... of Object.entries(skuImages)` loop. */
  method SearchPartial(es: seq<(string, Json)>, normalizedName: string) returns (r: Option<nat>)
    ensures r == PartialIndex(es, normalizedName)
  {
    var k := 0;
    while k < |es| && !Overlap(normalizedName, es[k].0)
      invariant 0 <= k <= |es|
      invariant forall m :: 0 <= m < k ==> !Overlap(normalizedName, es[m].0)
    {
      k := k + 1;
    }
    r := if k < |es| then Some(k) else None;
    PartialIndexUnique(es, normalizedName, r);
  }

  method FindImageForSKUName(skuName: Value, skuImages: Value) returns (r: Outcome<Value>)
    ensures r == ImageForSKUName(skuName, skuImages)
  {
    if !Truthy(skuImages) || !TypeofObject(skuImages) {
      return Ok(None);
    }
    var es := Entries(skuImages.value);
    var direct := Lookup(es, ToStr(skuName));
    if Truthy(direct) {
      return Ok(direct);
    }
    if !(skuName.Some? && skuName.value.JStr?) {
      return Err(TypeError);
    }
    var normalizedName := TrimLower(skuName.value.s);
    var same := SearchSameName(es, normalizedName);
    if same.Some? {
      return Ok(Some(es[same.value].1));
    }
    var partial := SearchPartial(es, normalizedName);
    if partial.Some? {
      return Ok(Some(es[partial.value].1));
    }
    return Ok(None);
  }

  /**
   * The lookup throws exactly when there is an image object, the exact key
   * misses, and the name is not a string; the error is a TypeError.
   */
  lemma ImageForSKUNameThrows(skuName: Value, skuImages: Value)
    ensures ImageForSKUName(skuName, skuImages).Err? <==>
      Truthy(skuImages) && TypeofObject(skuImages)
      && !Truthy(Lookup(Entries(skuImages.value), ToStr(skuName)))
      && !(skuName.Some? && skuName.value.JStr?)
    ensures ImageForSKUName(skuName, skuImages).Err? ==> ImageForSKUName(skuName, skuImages).error == TypeError
  {
  }

  /** A name that is blank after trimming takes the first entry unless some name is blank too. */
  lemma BlankNameTakesFirstEntry(name: string, skuImages: Value)
    requires Truthy(skuImages) && TypeofObject(skuImages) && Entries(skuImages.value) != []
    requires !Truthy(Lookup(Entries(skuImages.value), name)) && Trim(name) == []
    requires forall k :: 0 <= k < |Entries(skuImages.value)| ==> Trim(Entries(skuImages.value)[k].0) != []
    ensures ImageForSKUName(Some(JStr(name)), skuImages) == Ok(Some(Entries(skuImages.value)[0].1))
  {
    var es := Entries(skuImages.value);
    assert TrimLower(name) == [];
    NoBlankName(es);
    EmptyOverlapsFirst(es);
    PartialMatchTaken(name, skuImages);
  }

  /** A string name without an exact hit and without an equal name takes the first overlapping entry. */
  lemma PartialMatchTaken(name: string, skuImages: Value)
    requires Truthy(skuImages) && TypeofObject(skuImages)
    requires !Truthy(Lookup(Entries(skuImages.value), name))
    ensures var es := Entries(skuImages.value);
      var n := TrimLower(name);
      SameNameIndex(es, n).None? && PartialIndex(es, n).Some? ==>
        ImageForSKUName(Some(JStr(name)), skuImages) == Ok(Some(es[PartialIndex(es, n).value].1))
  {
    var es := Entries(skuImages.value);
    assert ToStr(Some(JStr(name))) == name;
    assert Lookup(es, ToStr(Some(JStr(name)))) == Lookup(es, name);
  }

  /** No entry is named `[]` once trimmed and lower-cased when no name is blank. */
  lemma NoBlankName(es: seq<(string, Json)>)
    requires forall k :: 0 <= k < |es| ==> Trim(es[k].0) != []
    ensures SameNameIndex(es, []) == None
  {
    forall k | 0 <= k < |es|
      ensures TrimLower(es[k].0) != []
    {
      assert |TrimLower(es[k].0)| == |Trim(es[k].0)|;
    }
  }

  /** The empty name overlaps every entry, so the first one is taken. */
  lemma EmptyOverlapsFirst(es: seq<(string, Json)>)
    requires es != []
    ensures PartialIndex(es, []) == Some(0)
  {
    ContainsEmpty(TrimLower(es[0].0));
    assert Overlap([], es[0].0);
  }

  /** `sku.price ? Number(sku.price) : (sku.discountPrice ? Number(sku.discountPrice) : undefined)`. */
  function MapEntryPrice(sku: Json): Option<Number> {
    if Truthy(Get(sku, "price")) then NumberIf(Get(sku, "price")) else NumberIf(Get(sku, "discountPrice"))
  }

  /** The SKU for one `_skuMap` element, given the image that was found for it. */
  function MapEntrySku(sku: Json, image: Value): SkuVariation {
    SkuVariation(
      ParseSpecAttrs(Get(sku, "specAttrs")),
      MapEntryPrice(sku),
      NumberIf(Get(sku, "canBookCount")),
      Some(ToStr(Or(Get(sku, "skuId"), Some(JStr(""))))),
      image)
  }

  /** One `_skuMap` element; a null element or a failed image lookup throws. */
  function SkuOfMapEntry(sku: Json, skuImages: Value): Outcome<seq<SkuVariation>> {
    if sku.JNull? then Err(TypeError)
    else
      var image :- ImageForSKUName(Get(sku, "specAttrs"), skuImages);
      Ok([MapEntrySku(sku, image)])
  }

  function SkuMapRow(skuImages: Value): Json -> Outcome<seq<SkuVariation>> {
    sku => SkuOfMapEntry(sku, skuImages)
  }

  /** The `_skuMap.forEach` loop. */
  method SkusFromSkuMap(items: seq<Json>, skuImages: Value) returns (r: Outcome<seq<SkuVariation>>)
    ensures r == Collect(items, SkuMapRow(skuImages))
  {
    var skus: seq<SkuVariation> := [];
    var k := 0;
    assert items[k..] == items;
    PrependNil(Collect(items, SkuMapRow(skuImages)));
    while k < |items|
      invariant 0 <= k <= |items|
      invariant Collect(items, SkuMapRow(skuImages)) == Prepend(skus, Collect(items[k..], SkuMapRow(skuImages)))
    {
      var sku := items[k];
      assert items[k..][0] == sku;
      if sku.JNull? {
        return Err(TypeError);
      }
      var image := FindImageForSKUName(Get(sku, "specAttrs"), skuImages);
      if image.Err? {
        return Err(image.error);
      }
      var next := MapEntrySku(sku, image.value);
      CollectStep(items, k, SkuMapRow(skuImages), skus, [next]);
      skus := skus + [next];
      k := k + 1;
    }
    assert items[k..] == [];
    assert skus + [] == skus;
    return Ok(skus);
  }

  // ---------------------------------------------------------------------
  // attributes of a `skuInfoMap` entry

  /** `Object.entries(v)` when `v` is truthy, else nothing. */
  function EntriesOf(v: Value): seq<(string, Json)> {
    if Truthy(v) then Entries(v.value) else []
  }

  /** `String(value)` as an attribute value. */
  function AttrString(v: Json): Value {
    Some(JStr(JsonToStr(v)))
  }

  /** `es.forEach(([key, value]) => { acc[key] = String(value); })`. */
  function PutAll(acc: Attributes, es: seq<(string, Json)>): Attributes
    decreases |es|
  {
    if es == [] then acc
    else
      var last := es[|es| - 1];
      Put(PutAll(acc, es[..|es| - 1]), last.0, AttrString(last.1))
  }

  /** The value of the last entry named `key`. */
  function LastValue(es: seq<(string, Json)>, key: string): Option<Json>
    decreases |es|
  {
    if es == [] then None
    else if es[|es| - 1].0 == key then Some(es[|es| - 1].1)
    else LastValue(es[..|es| - 1], key)
  }

  /** `extractSkuAttributes(skuInfo)`: `specAttrs` entries, then `attributes` entries, as strings. */
  function SkuAttributes(info: Json): Attributes {
    PutAll(PutAll([], EntriesOf(Get(info, "specAttrs"))), EntriesOf(Get(info, "attributes")))
  }

  method ExtractSkuAttributes(info: Json) returns (attributes: Attributes)
    ensures attributes == SkuAttributes(info)
  {
    attributes := PutEntries([], EntriesOf(Get(info, "specAttrs")));
    attributes := PutEntries(attributes, EntriesOf(Get(info, "attributes")));
  }

  /** One `forEach` that writes `String(value)` under each key into `acc`. */
  method PutEntries(acc: Attributes, es: seq<(string, Json)>) returns (attributes: Attributes)
    ensures attributes == PutAll(acc, es)
  {
    attributes := acc;
    var k := 0;
    while k < |es|
      invariant 0 <= k <= |es|
      invariant attributes == PutAll(acc, es[..k])
    {
      assert es[..k + 1][..k] == es[..k];
      attributes := Put(attributes, es[k].0, AttrString(es[k].1));
      k := k + 1;
    }
    assert es[..k] == es;
  }

  /** After the walk a key holds the string of its last entry, or what it held before. */
  lemma {:induction false} PutAllLookup(acc: Attributes, es: seq<(string, Json)>, key: string)
    ensures Lookup(PutAll(acc, es), key) ==
      match LastValue(es, key)
      case Some(v) => Some(AttrString(v))
      case None => Lookup(acc, key)
    decreases |es|
  {
    if es != [] {
      PutAllLookup(acc, es[..|es| - 1], key);
    }
  }

  lemma {:induction false} PutAllAppend(acc: Attributes, a: seq<(string, Json)>, b: seq<(string, Json)>)
    ensures PutAll(PutAll(acc, a), b) == PutAll(acc, a + b)
    decreases |b|
  {
    if b == [] {
      assert a + b == a;
    } else {
      assert (a + b)[..|a + b| - 1] == a + b[..|b| - 1];
      assert (a + b)[|a + b| - 1] == b[|b| - 1];
      PutAllAppend(acc, a, b[..|b| - 1]);
    }
  }

  /** Every attribute value a walk writes is a string. */
  predicate StringValued(attrs: Attributes) {
    forall k :: 0 <= k < |attrs| ==> attrs[k].1.Some? && attrs[k].1.value.JStr?
  }

  lemma {:induction false} PutAllStrings(acc: Attributes, es: seq<(string, Json)>)
    requires StringValued(acc)
    ensures StringValued(PutAll(acc, es))
    decreases |es|
  {
    if es != [] {
      var last := es[|es| - 1];
      var before := PutAll(acc, es[..|es| - 1]);
      PutAllStrings(acc, es[..|es| - 1]);
      PutFrom(before, last.0, AttrString(last.1));
    }
  }

  /**
   * A later entry overwrites an earlier one with the same key, `attributes`
   * after `specAttrs`; every value is a string.
   */
  lemma SkuAttributesLastWins(info: Json, key: string)
    ensures Lookup(SkuAttributes(info), key) ==
      match LastValue(EntriesOf(Get(info, "specAttrs")) + EntriesOf(Get(info, "attributes")), key)
      case Some(v) => Some(AttrString(v))
      case None => None
    ensures StringValued(SkuAttributes(info))
  {
    var a := EntriesOf(Get(info, "specAttrs"));
    var b := EntriesOf(Get(info, "attributes"));
    PutAllAppend([], a, b);
    PutAllLookup([], a + b, key);
    PutAllStrings(PutAll([], a), b) by {
      PutAllStrings([], a);
    }
  }

  // ---------------------------------------------------------------------
  // `skuInfoMap` and `skuProps`

  /** The SKU for one `skuInfoMap` entry. */
  function InfoSku(skuId: string, info: Json): SkuVariation {
    SkuVariation(
      SkuAttributes(info),
      NumberIf(Get(info, "price")),
      NumberIf(Or(Get(info, "canBookCount"), Get(info, "stock"))),
      Some(skuId),
      OrUndefined(Get(info, "skuImage"), Get(info, "image")))
  }

  function SkuOfInfoEntry(e: (string, Json)): Outcome<seq<SkuVariation>> {
    if e.1.JNull? then Err(TypeError) else Ok([InfoSku(e.0, e.1)])
  }

  /** The `Object.entries(skuInfoMap).forEach` loop. */
  method SkusFromInfoMap(es: seq<(string, Json)>) returns (r: Outcome<seq<SkuVariation>>)
    ensures r == Collect(es, SkuOfInfoEntry)
  {
    var skus: seq<SkuVariation> := [];
    var k := 0;
    assert es[k..] == es;
    PrependNil(Collect(es, SkuOfInfoEntry));
    while k < |es|
      invariant 0 <= k <= |es|
      invariant Collect(es, SkuOfInfoEntry) == Prepend(skus, Collect(es[k..], SkuOfInfoEntry))
    {
      var (skuId, skuInfo) := es[k];
      assert es[k..][0] == es[k];
      if skuInfo.JNull? {
        return Err(TypeError);
      }
      var attributes := ExtractSkuAttributes(skuInfo);
      var next := SkuVariation(
        attributes,
        NumberIf(Get(skuInfo, "price")),
        NumberIf(Or(Get(skuInfo, "canBookCount"), Get(skuInfo, "stock"))),
        Some(skuId),
        OrUndefined(Get(skuInfo, "skuImage"), Get(skuInfo, "image")));
      CollectStep(es, k, SkuOfInfoEntry, skus, [next]);
      skus := skus + [next];
      k := k + 1;
    }
    assert es[k..] == [];
    assert skus + [] == skus;
    return Ok(skus);
  }

  /** The SKU for one value of a `skuProps` property. */
  function PropValueSku(prop: Json, val: Json): SkuVariation {
    var id := Get(val, "id");
    SkuVariation(
      [(ToStr(Or(Get(prop, "name"), Get(prop, "prop"))), Or(Get(val, "name"), Get(val, "text")))],
      None,
      None,
      if Truthy(id) then StringOf(id) else None,
      OrUndefined(Get(val, "imageUrl"), Get(val, "image")))
  }

  function ValueSku(prop: Json, val: Json): Outcome<seq<SkuVariation>> {
    if val.JNull? then Err(TypeError) else Ok([PropValueSku(prop, val)])
  }

  function ValueRow(prop: Json): Json -> Outcome<seq<SkuVariation>> {
    val => ValueSku(prop, val)
  }

  /** One `skuProps` element: a SKU per value when its `value` is an array. */
  function PropSkus(prop: Json): Outcome<seq<SkuVariation>> {
    if prop.JNull? then Err(TypeError)
    else
      var v := Get(prop, "value");
      if IsArray(v) then Collect(v.value.items, ValueRow(prop)) else Ok([])
  }

  /** The inner `prop.value.forEach` loop. */
  method SkusOfValues(prop: Json, vals: seq<Json>) returns (r: Outcome<seq<SkuVariation>>)
    ensures r == Collect(vals, ValueRow(prop))
  {
    var skus: seq<SkuVariation> := [];
    var k := 0;
    assert vals[k..] == vals;
    PrependNil(Collect(vals, ValueRow(prop)));
    while k < |vals|
      invariant 0 <= k <= |vals|
      invariant Collect(vals, ValueRow(prop)) == Prepend(skus, Collect(vals[k..], ValueRow(prop)))
    {
      var val := vals[k];
      assert vals[k..][0] == val;
      if val.JNull? {
        return Err(TypeError);
      }
      var next := PropValueSku(prop, val);
      CollectStep(vals, k, ValueRow(prop), skus, [next]);
      skus := skus + [next];
      k := k + 1;
    }
    assert vals[k..] == [];
    assert skus + [] == skus;
    return Ok(skus);
  }

  /** The outer `skuProps.forEach` loop. */
  method SkusFromProps(props: seq<Json>) returns (r: Outcome<seq<SkuVariation>>)
    ensures r == Collect(props, PropSkus)
  {
    var skus: seq<SkuVariation> := [];
    var k := 0;
    assert props[k..] == props;
    PrependNil(Collect(props, PropSkus));
    while k < |props|
      invariant 0 <= k <= |props|
      invariant Collect(props, PropSkus) == Prepend(skus, Collect(props[k..], PropSkus))
    {
      var prop := props[k];
      assert props[k..][0] == prop;
      if prop.JNull? {
        return Err(TypeError);
      }
      var v := Get(prop, "value");
      var more: seq<SkuVariation> := [];
      if IsArray(v) {
        var inner := SkusOfValues(prop, v.value.items);
        if inner.Err? {
          return Err(inner.error);
        }
        more := inner.value;
      }
      CollectStep(props, k, PropSkus, skus, more);
      skus := skus + more;
      k := k + 1;
    }
    assert props[k..] == [];
    assert skus + [] == skus;
    return Ok(skus);
  }

  /**
   * `extractSKUs(raw)`: a non-empty `_skuMap` result returns at once;
   * otherwise `skuInfoMap`, and `skuProps` only if that gave nothing.
   */
  function Skus(raw: Raw): Outcome<seq<SkuVariation>> {
    var skuMap := Lookup(raw, "_skuMap");
    var s0 :- if IsArray(skuMap) then Collect(Items(skuMap), SkuMapRow(Lookup(raw, "_skuImages"))) else Ok([]);
    if s0 != [] then Ok(s0)
    else
      var info := Lookup(raw, "skuInfoMap");
      var s1 :- if Truthy(info) && TypeofObject(info) then Collect(Entries(info.value), SkuOfInfoEntry) else Ok([]);
      var props := Lookup(raw, "skuProps");
      if IsArray(props) && s1 == [] then Collect(Items(props), PropSkus) else Ok(s1)
  }

  method ExtractSKUs(raw: Raw) returns (r: Outcome<seq<SkuVariation>>)
    ensures r == Skus(raw)
  {
    var skus: seq<SkuVariation> := [];
    var skuMap := Lookup(raw, "_skuMap");
    if IsArray(skuMap) {
      var fromMap := SkusFromSkuMap(skuMap.value.items, Lookup(raw, "_skuImages"));
      if fromMap.Err? {
        return Err(fromMap.error);
      }
      skus := fromMap.value;
      if |skus| > 0 {
        return Ok(skus);
      }
    }
    var info := Lookup(raw, "skuInfoMap");
    if Truthy(info) && TypeofObject(info) {
      var fromInfo := SkusFromInfoMap(Entries(info.value));
      if fromInfo.Err? {
        return Err(fromInfo.error);
      }
      skus := fromInfo.value;
    }
    var props := Lookup(raw, "skuProps");
    if IsArray(props) && skus == [] {
      var fromProps := SkusFromProps(props.value.items);
      if fromProps.Err? {
        return Err(fromProps.error);
      }
      skus := fromProps.value;
    }
    return Ok(skus);
  }

  /**
   * A non-empty `_skuMap` decides alone: one SKU per element, in order,
   * each with no attributes or the raw spec value under 规格.
   */
  lemma SkuMapWins(raw: Raw)
    requires IsArray(Lookup(raw, "_skuMap")) && Items(Lookup(raw, "_skuMap")) != []
    requires Skus(raw).Ok?
    ensures var items := Items(Lookup(raw, "_skuMap"));
      |Skus(raw).value| == |items|
      && forall k :: 0 <= k < |items| ==>
        var attrs := Skus(raw).value[k].attributes;
        attrs == [] || attrs == [(SpecKey, Get(items[k], "specAttrs"))]
  {
    var items := Items(Lookup(raw, "_skuMap"));
    var f := SkuMapRow(Lookup(raw, "_skuImages"));
    var c := Collect(items, f);
    assert c.Ok?;
    CollectOnePerElement(items, f);
    assert Skus(raw) == c;
    forall k | 0 <= k < |items|
      ensures c.value[k].attributes == ParseSpecAttrs(Get(items[k], "specAttrs"))
    {
      assert SkuOfMapEntry(items[k], Lookup(raw, "_skuImages")) == Ok([c.value[k]]);
    }
  }

  /** From `skuInfoMap`, each SKU carries its key as id and string attributes, in entry order. */
  lemma InfoMapSkus(raw: Raw)
    requires Truthy(Lookup(raw, "skuInfoMap")) && TypeofObject(Lookup(raw, "skuInfoMap"))
    requires !IsArray(Lookup(raw, "_skuMap"))
    requires var c := Collect(Entries(Lookup(raw, "skuInfoMap").value), SkuOfInfoEntry); c.Ok? && c.value != []
    ensures var es := Entries(Lookup(raw, "skuInfoMap").value);
      Skus(raw).Ok? && |Skus(raw).value| == |es|
      && forall k :: 0 <= k < |es| ==>
        Skus(raw).value[k].skuId == Some(es[k].0) && StringValued(Skus(raw).value[k].attributes)
  {
    var es := Entries(Lookup(raw, "skuInfoMap").value);
    assert Skus(raw) == Collect(es, SkuOfInfoEntry);
    InfoEntrySkus(es);
  }

  /** A successful `skuInfoMap` walk yields one SKU per entry, with the entry's key as id and string attributes. */
  lemma InfoEntrySkus(es: seq<(string, Json)>)
    requires Collect(es, SkuOfInfoEntry).Ok?
    ensures var c := Collect(es, SkuOfInfoEntry).value;
      |c| == |es| && forall k :: 0 <= k < |es| ==> c[k].skuId == Some(es[k].0) && StringValued(c[k].attributes)
  {
    CollectOnePerElement(es, SkuOfInfoEntry);
    forall k | 0 <= k < |es|
      ensures StringValued(Collect(es, SkuOfInfoEntry).value[k].attributes)
    {
      SkuAttributesLastWins(es[k].1, "");
    }
  }

  // =====================================================================
  // Images

  const ImageExtensions: seq<string> := ["jpg", "jpeg", "png", "webp"]
  const CdnOrigin := "https://cbu01.alicdn.com"

  /** Protocol-relative URLs get `https:`, root-relative ones the CDN origin. */
  function WithProtocol(url: string): string {
    if StartsWith(url, "//") then "https:" + url
    else if StartsWith(url, "/") then CdnOrigin + url
    else url
  }

  /** The string part of `normalizeImageUrl`: the protocol, then `.jpg` when no image extension ends the path. */
  function NormalizeUrl(u: string): string {
    var url := WithProtocol(u);
    if url != [] && !HasExtension(url, ImageExtensions) then url + ".jpg" else url
  }

  /** `normalizeImageUrl(img)`: a string, or an object's `url || src || ''`, which must be a string. */
  function NormalizeImageUrl(img: Json): Outcome<string> {
    if img.JStr? then Ok(NormalizeUrl(img.s))
    else if img.JNull? then Err(TypeError)
    else
      var u := Or(Or(Get(img, "url"), Get(img, "src")), Some(JStr("")));
      if u.Some? && u.value.JStr? then Ok(NormalizeUrl(u.value.s)) else Err(TypeError)
  }

  /** A normalised image URL: not empty, not relative, and ending in an image extension. */
  predicate NormalizedImage(s: string) {
    s != [] && s[0] != '/' && HasExtension(s, ImageExtensions)
  }

  /** A non-empty URL comes out of the protocol step non-empty and not starting with `/`. */
  lemma WithProtocolShape(u: string)
    ensures WithProtocol(u) == [] <==> u == []
    ensures u != [] ==> WithProtocol(u)[0] != '/'
    ensures u != [] && u[0] != '/' ==> WithProtocol(u) == u
  {
    if u != [] {
      assert u[..1] == [u[0]];
      if |u| >= 2 {
        assert u[..2][0] == u[0];
      }
      if StartsWith(u, "//") {
        assert ("https:" + u)[0] == 'h';
      } else if StartsWith(u, "/") {
        assert (CdnOrigin + u)[0] == 'h';
      }
    }
  }

  /** Only the empty URL stays empty; every other one comes out absolute with an extension. */
  lemma NormalizeUrlShape(u: string)
    ensures NormalizeUrl(u) == [] <==> u == []
    ensures u != [] ==> NormalizedImage(NormalizeUrl(u))
  {
    WithProtocolShape(u);
    var url := WithProtocol(u);
    if u != [] && !HasExtension(url, ImageExtensions) {
      assert url + ".jpg" == url + "." + "jpg";
      ExtensionAppended(url, ImageExtensions, "jpg");
      assert (url + ".jpg")[0] == url[0];
    }
  }

  /** `//x` becomes `https://x`; `/x` becomes the CDN origin followed by `/x`. */
  lemma WithProtocolRules(x: string)
    ensures WithProtocol("//" + x) == "https://" + x
    ensures x == [] || x[0] != '/' ==> WithProtocol("/" + x) == CdnOrigin + "/" + x
  {
    var a := "//" + x;
    assert a[..2] == "//";
    assert "https:" + a == "https://" + x;
    var b := "/" + x;
    assert b[..1] == "/";
    if x == [] || x[0] != '/' {
      if |b| >= 2 {
        assert b[..2][1] == b[1] == x[0];
      }
    }
  }

  /** A URL that already ends in an image extension only gets its protocol; the empty URL stays empty. */
  lemma NormalizeUrlKeepsExtension(u: string)
    requires HasExtension(u, ImageExtensions)
    ensures NormalizeUrl(u) == WithProtocol(u)
  {
    if StartsWith(u, "//") {
      ExtensionPrefixed("https:", u, ImageExtensions);
    } else if StartsWith(u, "/") {
      ExtensionPrefixed(CdnOrigin, u, ImageExtensions);
    }
  }

  lemma NormalizeUrlEmpty()
    ensures NormalizeUrl("") == ""
  {
    assert WithProtocol("") == "";
  }

  /**
   * A string or an object's `url` or `src` string is normalised; an object
   * with neither gives the empty URL; null, or a `url || src` that is truthy
   * but not a string, throws a TypeError.
   */
  lemma NormalizeImageUrlOutcome(img: Json)
    ensures NormalizeImageUrl(img).Ok? ==> NormalizeImageUrl(img).value == [] || NormalizedImage(NormalizeImageUrl(img).value)
    ensures img.JStr? ==> NormalizeImageUrl(img) == Ok(NormalizeUrl(img.s))
    ensures img.JNull? ==> NormalizeImageUrl(img) == Err(TypeError)
    ensures img.JObj? && Truthy(Get(img, "url")) ==>
      NormalizeImageUrl(img) == if Get(img, "url").value.JStr? then Ok(NormalizeUrl(Get(img, "url").value.s)) else Err(TypeError)
    ensures img.JObj? && !Truthy(Get(img, "url")) && !Truthy(Get(img, "src")) ==> NormalizeImageUrl(img) == Ok("")
  {
    if NormalizeImageUrl(img).Ok? {
      var u := if img.JStr? then img.s else Or(Or(Get(img, "url"), Get(img, "src")), Some(JStr(""))).value.s;
      NormalizeUrlShape(u);
    }
    NormalizeUrlEmpty();
  }

  /** Normalising twice changes nothing. */
  lemma NormalizeUrlIdempotent(u: string)
    ensures NormalizeUrl(NormalizeUrl(u)) == NormalizeUrl(u)
  {
    NormalizeUrlShape(u);
    var n := NormalizeUrl(u);
    if n != [] {
      WithProtocolShape(n);
      assert WithProtocol(n) == n;
      assert HasExtension(n, ImageExtensions);
    }
  }

  /** An image entry as a one-element walk result. */
  function ImageRow(img: Json): Outcome<seq<string>> {
    var url :- NormalizeImageUrl(img);
    Ok([url])
  }

  /** `list.map(normalizeImageUrl)`. */
  method MapImageUrls(items: seq<Json>) returns (r: Outcome<seq<string>>)
    ensures r == Collect(items, ImageRow)
  {
    var urls: seq<string> := [];
    var k := 0;
    assert items[k..] == items;
    PrependNil(Collect(items, ImageRow));
    while k < |items|
      invariant 0 <= k <= |items|
      invariant Collect(items, ImageRow) == Prepend(urls, Collect(items[k..], ImageRow))
    {
      var img := items[k];
      assert items[k..][0] == img;
      var url := NormalizeImageUrl(img);
      if url.Err? {
        return Err(url.error);
      }
      CollectStep(items, k, ImageRow, urls, [url.value]);
      urls := urls + [url.value];
      k := k + 1;
    }
    assert items[k..] == [];
    assert urls + [] == urls;
    return Ok(urls);
  }

  /** `if (Array.isArray(v)) images.push(...v.map(normalizeImageUrl))`. */
  function AppendSource(images: seq<string>, v: Value): Outcome<seq<string>> {
    if IsArray(v) then
      var urls :- Collect(Items(v), ImageRow);
      Ok(images + urls)
    else Ok(images)
  }

  /** The same step, taken only while nothing has been found. */
  function NextSource(images: seq<string>, v: Value): Outcome<seq<string>> {
    if images == [] then AppendSource(images, v) else Ok(images)
  }

  method PushSource(images: seq<string>, v: Value) returns (r: Outcome<seq<string>>)
    ensures r == AppendSource(images, v)
  {
    if IsArray(v) {
      var urls := MapImageUrls(v.value.items);
      if urls.Err? {
        return Err(urls.error);
      }
      return Ok(images + urls.value);
    }
    return Ok(images);
  }

  /** `Boolean` on a string. */
  function NonEmpty(s: string): bool {
    s != []
  }

  /** The main-image candidates before blanks are dropped: the first source that yields any. */
  function MainImageCandidates(raw: Raw): Outcome<seq<string>> {
    var a :- AppendSource([], Lookup(raw, "image"));
    var b :- NextSource(a, Lookup(raw, "images"));
    var c :- NextSource(b, Lookup(raw, "offerImgList"));
    if Truthy(Lookup(raw, "mainImage")) && c == [] then ImageRow(Lookup(raw, "mainImage").value) else Ok(c)
  }

  /** `extractMainImages(raw)`: throws when no source yields an entry; blanks are dropped after that. */
  function MainImages(raw: Raw): Outcome<seq<string>> {
    var images :- MainImageCandidates(raw);
    if images == [] then Err(Thrown(NoImagesMessage)) else Ok(Filter(images, NonEmpty))
  }

  /** `extractDetailImages(raw)`: `detailImages` then `descImages`, blanks dropped. */
  function DetailImages(raw: Raw): Outcome<seq<string>> {
    var d :- AppendSource([], Lookup(raw, "detailImages"));
    var e :- AppendSource(d, Lookup(raw, "descImages"));
    Ok(Filter(e, NonEmpty))
  }

  method ExtractMainImageCandidates(raw: Raw) returns (r: Outcome<seq<string>>)
    ensures r == MainImageCandidates(raw)
  {
    var images :- PushSource([], Lookup(raw, "image"));
    if |images| == 0 {
      images :- PushSource(images, Lookup(raw, "images"));
    }
    if |images| == 0 {
      images :- PushSource(images, Lookup(raw, "offerImgList"));
    }
    var mainImage := Lookup(raw, "mainImage");
    if Truthy(mainImage) && |images| == 0 {
      var url :- NormalizeImageUrl(mainImage.value);
      assert images + [url] == [url];
      images := images + [url];
    }
    return Ok(images);
  }

  method ExtractMainImages(raw: Raw) returns (r: Outcome<seq<string>>)
    ensures r == MainImages(raw)
  {
    var images :- ExtractMainImageCandidates(raw);
    if |images| == 0 {
      return Err(Thrown(NoImagesMessage));
    }
    return Ok(Filter(images, NonEmpty));
  }

  method ExtractDetailImages(raw: Raw) returns (r: Outcome<seq<string>>)
    ensures r == DetailImages(raw)
  {
    var images :- PushSource([], Lookup(raw, "detailImages"));
    images :- PushSource(images, Lookup(raw, "descImages"));
    return Ok(Filter(images, NonEmpty));
  }

  /** Every URL is blank or normalised. */
  predicate BlankOrNormalized(urls: seq<string>) {
    forall k :: 0 <= k < |urls| ==> urls[k] == [] || NormalizedImage(urls[k])
  }

  lemma ImageRowShape(img: Json)
    ensures ImageRow(img).Ok? ==> |ImageRow(img).value| == 1 && BlankOrNormalized(ImageRow(img).value)
    ensures ImageRow(img).Err? ==> ImageRow(img).error == TypeError
  {
    if img.JStr? {
      NormalizeUrlShape(img.s);
    } else {
      var u := Or(Or(Get(img, "url"), Get(img, "src")), Some(JStr("")));
      if u.Some? && u.value.JStr? {
        NormalizeUrlShape(u.value.s);
      }
    }
  }

  /** A source step keeps every URL blank or normalised, and fails only with a TypeError. */
  lemma AppendSourceShape(images: seq<string>, v: Value)
    requires BlankOrNormalized(images)
    ensures AppendSource(images, v).Ok? ==> BlankOrNormalized(AppendSource(images, v).value)
    ensures AppendSource(images, v).Err? ==> AppendSource(images, v).error == TypeError
  {
    if IsArray(v) {
      var items := Items(v);
      var c := Collect(items, ImageRow);
      if c.Ok? {
        forall k | 0 <= k < |items| && ImageRow(items[k]).Ok?
          ensures |ImageRow(items[k]).value| == 1
        {
          ImageRowShape(items[k]);
        }
        CollectOnePerElement(items, ImageRow);
        forall k | 0 <= k < |c.value|
          ensures c.value[k] == [] || NormalizedImage(c.value[k])
        {
          ImageRowShape(items[k]);
          assert ImageRow(items[k]).value == [c.value[k]];
          assert ImageRow(items[k]).value[0] == c.value[k];
        }
        assert forall k :: 0 <= k < |images + c.value| ==>
          (images + c.value)[k] == (if k < |images| then images[k] else c.value[k - |images|]);
      } else {
        CollectErrorFrom(items, ImageRow);
        var k :| 0 <= k < |items| && ImageRow(items[k]) == Err(c.error);
        ImageRowShape(items[k]);
      }
    }
  }

  /** The candidates are blank or normalised; they fail only with a TypeError. */
  lemma CandidatesShape(raw: Raw)
    ensures MainImageCandidates(raw).Ok? ==> BlankOrNormalized(MainImageCandidates(raw).value)
    ensures MainImageCandidates(raw).Err? ==> MainImageCandidates(raw).error == TypeError
  {
    AppendSourceShape([], Lookup(raw, "image"));
    var a := AppendSource([], Lookup(raw, "image"));
    if a.Ok? {
      AppendSourceShape(a.value, Lookup(raw, "images"));
      var b := NextSource(a.value, Lookup(raw, "images"));
      if b.Ok? {
        AppendSourceShape(b.value, Lookup(raw, "offerImgList"));
        var m := Lookup(raw, "mainImage");
        if Truthy(m) {
          ImageRowShape(m.value);
        }
      }
    }
  }

  /** Dropping blanks from blank-or-normalised URLs leaves normalised ones. */
  lemma FilterBlanks(urls: seq<string>)
    requires BlankOrNormalized(urls)
    ensures forall k :: 0 <= k < |Filter(urls, NonEmpty)| ==> NormalizedImage(Filter(urls, NonEmpty)[k])
  {
    var f := Filter(urls, NonEmpty);
    forall k | 0 <= k < |f|
      ensures NormalizedImage(f[k])
    {
      assert NonEmpty(f[k]) && f[k] in urls;
    }
  }

  /**
   * Main images: every one is a normalised URL; the call throws "No product
   * images found" exactly when no source yields an entry (and nothing threw),
   * and otherwise fails only with a TypeError.
   */
  lemma MainImagesShape(raw: Raw)
    ensures MainImages(raw).Ok? ==> forall k :: 0 <= k < |MainImages(raw).value| ==> NormalizedImage(MainImages(raw).value[k])
    ensures MainImages(raw) == Err(Thrown(NoImagesMessage)) <==> MainImageCandidates(raw) == Ok([])
    ensures MainImages(raw).Err? ==> MainImages(raw).error in {TypeError, Thrown(NoImagesMessage)}
  {
    CandidatesShape(raw);
    if MainImageCandidates(raw).Ok? {
      FilterBlanks(MainImageCandidates(raw).value);
    }
  }

  /** A source holding only a blank string passes the emptiness check and leaves no image. */
  lemma BlankImageFiltered(raw: Raw)
    requires Lookup(raw, "image") == Some(JArr([JStr("")]))
    ensures MainImages(raw) == Ok([])
  {
    var items := [JStr("")];
    assert items != [] && items[0] == JStr("");
    assert WithProtocol("") == "";
    assert NormalizeUrl("") == "";
    assert ImageRow(JStr("")) == Ok([""]);
    assert items[1..] == [];
    assert Collect(items[1..], ImageRow) == Ok([]);
    var blank: seq<string> := [""];
    assert blank + [] == blank && [] + blank == blank;
    assert Collect(items, ImageRow) == Ok(blank);
    assert AppendSource([], Lookup(raw, "image")) == Ok([""]);
    assert MainImageCandidates(raw) == Ok([""]);
  }

  /**
   * Detail images are those of `detailImages` then those of `descImages`,
   * blanks dropped, each normalised; they fail only with a TypeError.
   */
  lemma DetailImagesShape(raw: Raw)
    ensures DetailImages(raw).Ok? ==> forall k :: 0 <= k < |DetailImages(raw).value| ==> NormalizedImage(DetailImages(raw).value[k])
    ensures DetailImages(raw).Err? ==> DetailImages(raw).error == TypeError
  {
    AppendSourceShape([], Lookup(raw, "detailImages"));
    var d := AppendSource([], Lookup(raw, "detailImages"));
    if d.Ok? {
      AppendSourceShape(d.value, Lookup(raw, "descImages"));
      var e := AppendSource(d.value, Lookup(raw, "descImages"));
      if e.Ok? {
        FilterBlanks(e.value);
      }
    }
  }

  /** The detail list keeps the order of its two sources. */
  lemma DetailImagesOrder(raw: Raw)
    requires IsArray(Lookup(raw, "detailImages")) && IsArray(Lookup(raw, "descImages"))
    requires DetailImages(raw).Ok?
    ensures var d := Collect(Items(Lookup(raw, "detailImages")), ImageRow);
      var e := Collect(Items(Lookup(raw, "descImages")), ImageRow);
      d.Ok? && e.Ok? && DetailImages(raw).value == Filter(d.value, NonEmpty) + Filter(e.value, NonEmpty)
  {
    var d := Collect(Items(Lookup(raw, "detailImages")), ImageRow);
    var e := Collect(Items(Lookup(raw, "descImages")), ImageRow);
    assert [] + d.value == d.value;
    FilterAppend(d.value, e.value, NonEmpty);
  }

  // =====================================================================
  // The product

  /** The record assembled from the raw fields, in the order the object literal evaluates them. */
  function Assembled(raw: Raw, sourceUrl: string, extractedAt: string): Outcome<Product> {
    var productId :- ProductIdOf(raw, sourceUrl);
    var title :- TitleOf(raw);
    var priceTiers :- PriceTiers(raw);
    var skus :- Skus(raw);
    var main :- MainImages(raw);
    var detail :- DetailImages(raw);
    Ok(Product(
      sourceUrl, productId, title, Description(raw), priceTiers, Currency, skus,
      Weight(raw), ShippingTemplateId(raw), Images(main, detail),
      SupplierId(raw), SupplierName(raw), CategoryId(raw), CategoryName(raw),
      extractedAt, ExtractedBy))
  }

  /**
   * `normalize1688Product(raw, sourceUrl)`: the assembled record, checked
   * against the schema. `extractedAt` is the clock's ISO string.
   */
  function Normalized(raw: Raw, sourceUrl: string, extractedAt: string, isUrl: FormatCheck, isDatetime: FormatCheck): Outcome<Product> {
    var p :- Assembled(raw, sourceUrl, extractedAt);
    Parse(p, isUrl, isDatetime)
  }

  method Normalize1688Product(raw: Raw, sourceUrl: string, extractedAt: string, isUrl: FormatCheck, isDatetime: FormatCheck)
    returns (r: Outcome<Product>)
    ensures r == Normalized(raw, sourceUrl, extractedAt, isUrl, isDatetime)
  {
    var productId :- ProductIdOf(raw, sourceUrl);
    var title :- TitleOf(raw);
    var priceTiers :- ExtractPriceTiers(raw);
    var skus :- ExtractSKUs(raw);
    var main :- ExtractMainImages(raw);
    var detail :- ExtractDetailImages(raw);
    var normalized := Product(
      sourceUrl, productId, title, Description(raw), priceTiers, Currency, skus,
      Weight(raw), ShippingTemplateId(raw), Images(main, detail),
      SupplierId(raw), SupplierName(raw), CategoryId(raw), CategoryName(raw),
      extractedAt, ExtractedBy);
    r := Parse(normalized, isUrl, isDatetime);
  }

  /** What the assembled record holds, field by field. */
  lemma AssembledFields(raw: Raw, sourceUrl: string, extractedAt: string)
    requires Assembled(raw, sourceUrl, extractedAt).Ok?
    ensures var p := Assembled(raw, sourceUrl, extractedAt).value;
      p.sourceUrl == sourceUrl && p.extractedAt == extractedAt
      && TitleOf(raw) == Ok(p.title) && MainImages(raw) == Ok(p.images.main)
      && ProductIdOf(raw, sourceUrl) == Ok(p.productId)
  {
    var id := ProductIdOf(raw, sourceUrl);
    var title := TitleOf(raw);
    var tiers := PriceTiers(raw);
    var skus := Skus(raw);
    var main := MainImages(raw);
    var detail := DetailImages(raw);
    assert id.Ok? && title.Ok? && tiers.Ok? && skus.Ok? && main.Ok? && detail.Ok?;
    assert Assembled(raw, sourceUrl, extractedAt) == Ok(Product(
      sourceUrl, id.value, title.value, Description(raw), tiers.value, Currency, skus.value,
      Weight(raw), ShippingTemplateId(raw), Images(main.value, detail.value),
      SupplierId(raw), SupplierName(raw), CategoryId(raw), CategoryName(raw),
      extractedAt, ExtractedBy));
  }

  /**
   * A returned product is valid, keeps the source URL and the clock's time,
   * says CNY and ecomate-extension, has a trimmed title and normalised main images.
   */
  lemma NormalizedValid(raw: Raw, sourceUrl: string, extractedAt: string, isUrl: FormatCheck, isDatetime: FormatCheck)
    requires Normalized(raw, sourceUrl, extractedAt, isUrl, isDatetime).Ok?
    ensures var p := Normalized(raw, sourceUrl, extractedAt, isUrl, isDatetime).value;
      ValidProduct(p, isUrl, isDatetime)
      && p.sourceUrl == sourceUrl && p.extractedAt == extractedAt
      && p.currency == "CNY" && p.extractedBy == "ecomate-extension"
      && Trim(p.title) == p.title
      && (forall k :: 0 <= k < |p.images.main| ==> NormalizedImage(p.images.main[k]))
  {
    var a := Assembled(raw, sourceUrl, extractedAt);
    assert a.Ok?;
    var p := a.value;
    assert Normalized(raw, sourceUrl, extractedAt, isUrl, isDatetime) == Parse(p, isUrl, isDatetime);
    AssembledFields(raw, sourceUrl, extractedAt);
    MainImagesShape(raw);
  }

  /** The SKU section fails only with a TypeError. */
  lemma SkuErrors(raw: Raw)
    ensures Skus(raw).Err? ==> Skus(raw).error == TypeError
  {
    MapSkuErrors(Items(Lookup(raw, "_skuMap")), Lookup(raw, "_skuImages"));
    var info := Lookup(raw, "skuInfoMap");
    if Truthy(info) && TypeofObject(info) {
      InfoSkuErrors(Entries(info.value));
    }
    PropSkuErrors(Items(Lookup(raw, "skuProps")));
  }

  /** The `_skuMap` walk fails only with a TypeError. */
  lemma MapSkuErrors(items: seq<Json>, skuImages: Value)
    ensures Collect(items, SkuMapRow(skuImages)).Err? ==> Collect(items, SkuMapRow(skuImages)).error == TypeError
  {
    var f := SkuMapRow(skuImages);
    if Collect(items, f).Err? {
      CollectErrorFrom(items, f);
      var k :| 0 <= k < |items| && f(items[k]) == Err(Collect(items, f).error);
      ImageForSKUNameThrows(Get(items[k], "specAttrs"), skuImages);
    }
  }

  /** The `skuInfoMap` walk fails only with a TypeError. */
  lemma InfoSkuErrors(es: seq<(string, Json)>)
    ensures Collect(es, SkuOfInfoEntry).Err? ==> Collect(es, SkuOfInfoEntry).error == TypeError
  {
    if Collect(es, SkuOfInfoEntry).Err? {
      CollectErrorFrom(es, SkuOfInfoEntry);
    }
  }

  /** The `skuProps` walk fails only with a TypeError. */
  lemma PropSkuErrors(props: seq<Json>)
    ensures Collect(props, PropSkus).Err? ==> Collect(props, PropSkus).error == TypeError
  {
    if Collect(props, PropSkus).Err? {
      CollectErrorFrom(props, PropSkus);
      var k :| 0 <= k < |props| && PropSkus(props[k]) == Err(Collect(props, PropSkus).error);
      var v := Get(props[k], "value");
      if !props[k].JNull? && IsArray(v) {
        CollectErrorFrom(v.value.items, ValueRow(props[k]));
      }
    }
  }

  /** The only errors: the four messages, a TypeError from a null entry, or the schema's. */
  lemma NormalizedErrors(raw: Raw, sourceUrl: string, extractedAt: string, isUrl: FormatCheck, isDatetime: FormatCheck)
    ensures var r := Normalized(raw, sourceUrl, extractedAt, isUrl, isDatetime);
      r.Err? ==> r.error in {Thrown(NoIdMessage), Thrown(NoTitleMessage), Thrown(NoPriceMessage), Thrown(NoImagesMessage), TypeError, SchemaViolation}
  {
    PriceTierErrors(raw);
    SkuErrors(raw);
    MainImagesShape(raw);
    DetailImagesShape(raw);
  }

  /** A missing id is reported before anything else, then a missing title, then a price failure. */
  lemma NormalizedErrorOrder(raw: Raw, sourceUrl: string, extractedAt: string, isUrl: FormatCheck, isDatetime: FormatCheck)
    ensures var r := Normalized(raw, sourceUrl, extractedAt, isUrl, isDatetime);
      (ProductIdOf(raw, sourceUrl).Err? ==> r == Err(Thrown(NoIdMessage)))
      && (ProductIdOf(raw, sourceUrl).Ok? && TitleOf(raw).Err? ==> r == Err(Thrown(NoTitleMessage)))
      && (ProductIdOf(raw, sourceUrl).Ok? && TitleOf(raw).Ok? && PriceTiers(raw).Err? ==> r == Err(PriceTiers(raw).error))
  {
  }

  /** With only a blank main image every step succeeds and the schema rejects the record. */
  lemma BlankImageRejected(raw: Raw, sourceUrl: string, extractedAt: string, isUrl: FormatCheck, isDatetime: FormatCheck)
    requires Lookup(raw, "image") == Some(JArr([JStr("")]))
    requires Assembled(raw, sourceUrl, extractedAt).Ok?
    ensures Normalized(raw, sourceUrl, extractedAt, isUrl, isDatetime) == Err(SchemaViolation)
  {
    BlankImageFiltered(raw);
    AssembledFields(raw, sourceUrl, extractedAt);
    var p := Assembled(raw, sourceUrl, extractedAt).value;
    assert |p.images.main| == 0;
    assert !ValidProduct(p, isUrl, isDatetime);
  }
}
