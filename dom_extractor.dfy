/**
 * `extractFromDOM()`: the fallback extractor that reads a product page's
 * elements instead of its embedded JSON. The id comes from the URL, the
 * title from a chain of four strategies, the images and the prices from
 * their own steps, the supplier from name selectors and seller links, and
 * the SKU data from the first inline script that holds it; together they
 * make a raw record for the normaliser.
 */
module DomExtractor {
  import opened Wrappers
  import opened Text
  import opened Js
  import opened Seqs
  import opened Urls
  import opened Oracles
  import DomImages
  import DomPrices
  import SkuParser
  import Normalizer
  import ProductSchema

  /**
   * What the extractor reads from the page. A selector stands for the
   * elements the document returns for it, in document order.
   */
  datatype Page = Page(
    href: string,                              // window.location.href
    textOf: string -> Option<string>,          // document.querySelector(sel)?.textContent
    textsOf: string -> seq<string>,            // the textContent of each element of querySelectorAll(sel)
    imagesOf: string -> seq<DomImages.Img>,    // querySelectorAll<HTMLImageElement>(sel)
    hrefsOf: string -> seq<Option<string>>,    // getAttribute('href') of each element of querySelectorAll(sel)
    ogTitle: Option<string>,                   // content of meta[property="og:title"], None without the tag or attribute
    documentTitle: string,                     // document.title
    tierRows: seq<string>,                     // the rows of every price-range container, selector by selector
    scripts: seq<string>)                      // the textContent of each script:not([src])

  const NoIdMessage := "Could not extract product ID from URL"
  const NoTitleMessage := "Could not extract product title from DOM"

  const TitleSelectors: seq<string> := [
    ".offer-title",
    "[class*=\"detail-title\"]",
    "[class*=\"product-title\"]",
    "[class*=\"subject\"]",
    "h1.title",
    "h1[class*=\"title\"]"]
  const H1Selector := "h1"
  const PriceSelector := "[class*=\"price\"], [class*=\"Price\"]"
  const SupplierSelectors: seq<string> := [
    "[class*=\"company-name\"]",
    "[class*=\"seller-name\"]",
    "[class*=\"shop-name\"]",
    "[class*=\"store-name\"]",
    ".company-info h1",
    ".company-info h2"]
  const SellerLinkSelector := "a[href*=\"company\"], a[href*=\"shop\"], a[href*=\"winport\"]"

  // =====================================================================
  // Product id

  /** `extractProductIdFromURL()`: the offer id of the page URL, or a throw. */
  function ProductIdFromUrl(url: string): (r: Outcome<string>)
    ensures r.Ok? <==> OfferId(url).Some?
    ensures r.Ok? ==> r.value == OfferId(url).value && r.value != [] && AllDigits(r.value)
    ensures r.Err? ==> r.error == Thrown(NoIdMessage)
  {
    OfferIdShape(url);
    match OfferId(url)
    case None => Err(Thrown(NoIdMessage))
    case Some(d) => Ok(d)
  }

  // =====================================================================
  // Title

  /** `element.textContent?.trim()` when the element exists and the trimmed text is not empty. */
  function NonBlank(text: Option<string>): (r: Option<string>)
    ensures r.Some? ==> text.Some? && r.value == Trim(text.value)
    ensures r.Some? <==> text.Some? && Trim(text.value) != []
  {
    if text.Some? && Trim(text.value) != [] then Some(Trim(text.value)) else None
  }

  /** The selectors whose first element has text. */
  function HasText(page: Page): string -> bool {
    sel => NonBlank(page.textOf(sel)).Some?
  }

  /** The loop over selectors: the trimmed text of the first whose element has any. */
  function SelectorText(page: Page, sels: seq<string>): Option<string> {
    match FirstIndex(sels, HasText(page))
    case None => None
    case Some(k) => NonBlank(page.textOf(sels[k]))
  }

  /** `text && text.length > 10 && text.length < 200` for a trimmed heading. */
  predicate HeadingFits(text: string) {
    10 < |Trim(text)| < 200
  }

  /** Strategy 2: the first `<h1>` whose trimmed text is of plausible length. */
  function HeadingTitle(texts: seq<string>): Option<string> {
    match FirstIndex(texts, HeadingFits)
    case None => None
    case Some(k) => Some(Trim(texts[k]))
  }

  /** Strategy 3: a non-empty `og:title` content, trimmed, even to nothing. */
  function OgTitle(content: Option<string>): Option<string> {
    if content.Some? && content.value != [] then Some(Trim(content.value)) else None
  }

  /** No white space at either end, as `trim` leaves a string. */
  predicate Trimmed(s: string) {
    s == [] || (!IsSpace(s[0]) && !IsSpace(s[|s| - 1]))
  }

  /** The document title up to the first `-`, then up to the first `_`, trimmed. */
  function TitleStem(title: string): (r: string)
    ensures '-' !in r && '_' !in r
    ensures Trimmed(r)
  {
    var a := Before(title, '-');
    var b := Before(a, '_');
    assert '-' !in b by {
      assert forall k :: 0 <= k < |b| ==> b[k] == a[k];
    }
    var r := Trim(b);
    assert forall k :: 0 <= k < |r| ==> r[k] in b by {
      var i := |b| - |TrimStart(b)|;
      assert forall k :: 0 <= k < |r| ==> r[k] == b[i + k];
    }
    r
  }

  /** Strategy 4: the title stem, when longer than five characters. */
  function DocumentTitle(title: string): Option<string> {
    if |TitleStem(title)| > 5 then Some(TitleStem(title)) else None
  }

  /** `extractTitleFromDOM()`: the four strategies in order, or a throw. */
  function TitleFromDom(page: Page): Outcome<string> {
    var s := SelectorText(page, TitleSelectors);
    if s.Some? then Ok(s.value)
    else
      var h := HeadingTitle(page.textsOf(H1Selector));
      if h.Some? then Ok(h.value)
      else
        var o := OgTitle(page.ogTitle);
        if o.Some? then Ok(o.value)
        else
          var d := DocumentTitle(page.documentTitle);
          if d.Some? then Ok(d.value) else Err(Thrown(NoTitleMessage))
  }

  /** The `for ... of` over selectors with its early `return`. */
  method FindSelectorText(page: Page, sels: seq<string>) returns (r: Option<string>)
    ensures r == SelectorText(page, sels)
  {
    for k := 0 to |sels|
      invariant forall j :: 0 <= j < k ==> !HasText(page)(sels[j])
    {
      var text := page.textOf(sels[k]);
      if text.Some? && Trim(text.value) != [] {
        assert HasText(page)(sels[k]);
        return Some(Trim(text.value));
      }
    }
    return None;
  }

  /** The `for ... of` over the `<h1>` elements with its early `return`. */
  method FindHeadingTitle(texts: seq<string>) returns (r: Option<string>)
    ensures r == HeadingTitle(texts)
  {
    for k := 0 to |texts|
      invariant forall j :: 0 <= j < k ==> !HeadingFits(texts[j])
    {
      var text := Trim(texts[k]);
      if text != [] && |text| > 10 && |text| < 200 {
        assert HeadingFits(texts[k]);
        FirstIndexAt(texts, HeadingFits, k);
        return Some(text);
      }
    }
    assert FirstIndex(texts, HeadingFits).None?;
    return None;
  }

  method ExtractTitleFromDom(page: Page) returns (r: Outcome<string>)
    ensures r == TitleFromDom(page)
  {
    var s := FindSelectorText(page, TitleSelectors);
    if s.Some? {
      return Ok(s.value);
    }
    var h := FindHeadingTitle(page.textsOf(H1Selector));
    if h.Some? {
      return Ok(h.value);
    }
    if page.ogTitle.Some? && page.ogTitle.value != [] {
      return Ok(Trim(page.ogTitle.value));
    }
    var docTitle := TitleStem(page.documentTitle);
    if docTitle != [] && |docTitle| > 5 {
      return Ok(docTitle);
    }
    return Err(Thrown(NoTitleMessage));
  }

  /** The selector loop returns the trimmed text of the first selector with text, and no other. */
  lemma SelectorTextShape(page: Page, sels: seq<string>)
    ensures var r := SelectorText(page, sels);
      && (r.None? <==> forall k :: 0 <= k < |sels| ==> NonBlank(page.textOf(sels[k])).None?)
      && (r.Some? ==> r.value != [] && Trimmed(r.value))
      && (forall k :: 0 <= k < |sels| && NonBlank(page.textOf(sels[k])).Some?
            && (forall j :: 0 <= j < k ==> NonBlank(page.textOf(sels[j])).None?)
            ==> r == NonBlank(page.textOf(sels[k])))
  {
    SelectorTextFound(page, sels);
    forall k | 0 <= k < |sels| && NonBlank(page.textOf(sels[k])).Some?
        && (forall j :: 0 <= j < k ==> NonBlank(page.textOf(sels[j])).None?)
      ensures SelectorText(page, sels) == NonBlank(page.textOf(sels[k]))
    {
      SelectorTextFirst(page, sels, k);
    }
  }

  /** The loop finds nothing exactly when no selector has text, and what it finds is trimmed and not empty. */
  lemma SelectorTextFound(page: Page, sels: seq<string>)
    ensures var r := SelectorText(page, sels);
      && (r.None? <==> forall k :: 0 <= k < |sels| ==> NonBlank(page.textOf(sels[k])).None?)
      && (r.Some? ==> r.value != [] && Trimmed(r.value))
  {
    var p := HasText(page);
    var i := FirstIndex(sels, p);
    if i.Some? {
      assert p(sels[i.value]);
      var t := NonBlank(page.textOf(sels[i.value]));
      assert t.Some? && t.value == Trim(page.textOf(sels[i.value]).value);
    } else {
      assert forall k :: 0 <= k < |sels| ==> !p(sels[k]);
    }
  }

  /** The first selector with text is the one whose text the loop returns. */
  lemma SelectorTextFirst(page: Page, sels: seq<string>, k: nat)
    requires k < |sels| && NonBlank(page.textOf(sels[k])).Some?
    requires forall j :: 0 <= j < k ==> NonBlank(page.textOf(sels[j])).None?
    ensures SelectorText(page, sels) == NonBlank(page.textOf(sels[k]))
  {
    var p := HasText(page);
    assert p(sels[k]);
    assert forall j :: 0 <= j < k ==> !p(sels[j]);
    FirstIndexAt(sels, p, k);
  }

  /**
   * The title step fails exactly when no strategy finds anything. A found
   * title is always trimmed, and is empty only when it comes from a blank
   * but non-empty `og:title`.
   */
  lemma TitleFromDomShape(page: Page)
    ensures var r := TitleFromDom(page);
      && (r.Err? <==> SelectorText(page, TitleSelectors).None? && HeadingTitle(page.textsOf(H1Selector)).None?
                      && OgTitle(page.ogTitle).None? && DocumentTitle(page.documentTitle).None?)
      && (r.Err? ==> r.error == Thrown(NoTitleMessage))
      && (r.Ok? ==> Trimmed(r.value))
      && (r.Ok? && r.value == [] <==>
            SelectorText(page, TitleSelectors).None? && HeadingTitle(page.textsOf(H1Selector)).None?
            && page.ogTitle.Some? && page.ogTitle.value != [] && Trim(page.ogTitle.value) == [])
  {
    SelectorTextShape(page, TitleSelectors);
  }

  /** A document title `name - site` with a long enough name gives the name. */
  lemma DocumentTitleOfSuffixed(name: string, site: string)
    requires '-' !in name && '_' !in name && Trimmed(name) && |name| > 5
    ensures DocumentTitle(name + " - " + site) == Some(name)
  {
    var t := name + " - " + site;
    BeforeOf(t, name + " ", '-');
    BeforeOf(name + " ", name + " ", '_');
    TrimSpaceAfter(name);
  }

  /** `s.split(c)[0]` is `p` when `s` starts with `p` and then `c`, or is `p`, and `p` has no `c`. */
  lemma {:induction false} BeforeOf(s: string, p: string, c: char)
    requires c !in p && p <= s && (|p| < |s| ==> s[|p|] == c)
    ensures Before(s, c) == p
    decreases |p|
  {
    if p != [] {
      assert s[0] == p[0];
      BeforeOf(s[1..], p[1..], c);
    }
  }

  /** One trailing space goes, and nothing else. */
  lemma TrimSpaceAfter(name: string)
    requires Trimmed(name) && name != []
    ensures Trim(name + " ") == name
  {
    var s := name + " ";
    assert s[0] == name[0];
    assert TrimStart(s) == s;
    assert s[..|s| - 1] == name;
    assert TrimEnd(name) == name;
    assert TrimEnd(s) == name;
  }

  // =====================================================================
  // Supplier

  const SellerKeywords: seq<string> := ["company", "shop", "winport"]

  /** Where a keyword of `(?:company|shop|winport)` ends when one starts at `i`. */
  function KeywordEnd(s: string, i: nat): (r: Option<nat>)
    ensures r.Some? ==> exists w :: w in SellerKeywords && OccursAt(s, w, i) && r.value == i + |w|
    ensures r.None? ==> forall w :: w in SellerKeywords ==> !OccursAt(s, w, i)
  {
    if OccursAt(s, "company", i) then Some(i + 7)
    else if OccursAt(s, "shop", i) then Some(i + 4)
    else if OccursAt(s, "winport", i) then Some(i + 7)
    else None
  }

  /** The lazy `.*?` before `\d`: the first digit from `j` on, unless a line break comes first. */
  function FirstDigitFrom(s: string, j: nat): (r: Option<nat>)
    ensures r.Some? ==> j <= r.value < |s| && IsDigit(s[r.value])
    ensures r.Some? ==> forall k :: j <= k < r.value ==> !IsDigit(s[k]) && !IsLineTerminator(s[k])
    decreases |s| - j
  {
    if j >= |s| then None
    else if IsDigit(s[j]) then Some(j)
    else if IsLineTerminator(s[j]) then None
    else FirstDigitFrom(s, j + 1)
  }

  /** `(?:company|shop|winport).*?(\d+)` tried at `i`: the digit run it captures. */
  function SellerIdAt(s: string, i: nat): (r: Option<string>)
    ensures r.Some? ==> r.value != [] && AllDigits(r.value)
  {
    match KeywordEnd(s, i)
    case None => None
    case Some(e) =>
      if e > |s| then None
      else
        match FirstDigitFrom(s, e)
        case None => None
        case Some(j) => Some(DigitRun(s, j))
  }

  /** The leftmost match at or after `i`. */
  function SellerIdFrom(s: string, i: nat): (r: Option<string>)
    ensures r.Some? ==> r.value != [] && AllDigits(r.value)
    decreases |s| - i
  {
    if i >= |s| then None
    else if SellerIdAt(s, i).Some? then SellerIdAt(s, i)
    else SellerIdFrom(s, i + 1)
  }

  /** `link.getAttribute('href') || ''`. */
  function HrefText(href: Option<string>): string {
    if href.Some? then href.value else ""
  }

  predicate HasSellerId(href: Option<string>) {
    SellerIdFrom(HrefText(href), 0).Some?
  }

  /** The seller id of the first link that has one. */
  function SellerId(hrefs: seq<Option<string>>): (r: Option<string>)
    ensures r.Some? ==> r.value != [] && AllDigits(r.value)
    ensures r.None? <==> forall k :: 0 <= k < |hrefs| ==> !HasSellerId(hrefs[k])
  {
    match FirstIndex(hrefs, HasSellerId)
    case None => None
    case Some(k) => SellerIdFrom(HrefText(hrefs[k]), 0)
  }

  datatype Supplier = Supplier(name: Option<string>, id: Option<string>)

  /** `extractSupplierFromDOM()`. */
  function SupplierFromDom(page: Page): Supplier {
    Supplier(SelectorText(page, SupplierSelectors), SellerId(page.hrefsOf(SellerLinkSelector)))
  }

  /** The `for ... of` over the seller links with its `break`. */
  method FindSellerId(links: seq<Option<string>>) returns (id: Option<string>)
    ensures id == SellerId(links)
  {
    id := None;
    var k := 0;
    while k < |links| && id.None?
      invariant 0 <= k <= |links|
      invariant id.None? ==> forall j :: 0 <= j < k ==> !HasSellerId(links[j])
      invariant id.Some? ==> 0 < k && id == SellerIdFrom(HrefText(links[k - 1]), 0)
      invariant id.Some? ==> forall j :: 0 <= j < k - 1 ==> !HasSellerId(links[j])
    {
      var href := HrefText(links[k]);
      var idMatch := SellerIdFrom(href, 0);
      if idMatch.Some? && idMatch.value != [] {
        id := idMatch;
      }
      k := k + 1;
    }
    if id.Some? {
      FirstIndexAt(links, HasSellerId, k - 1);
    }
  }

  method ExtractSupplierFromDom(page: Page) returns (s: Supplier)
    ensures s == SupplierFromDom(page)
  {
    var name := FindSelectorText(page, SupplierSelectors);
    var id := FindSellerId(page.hrefsOf(SellerLinkSelector));
    return Supplier(name, id);
  }

  /** A keyword at the start ends where it ends; the three begin with different letters. */
  lemma KeywordAtStart(s: string, w: string)
    requires w in SellerKeywords && |w| <= |s| && s[..|w|] == w
    ensures KeywordEnd(s, 0) == Some(|w|)
  {
    assert s[0] == w[0];
    if w != "company" {
      assert s[0] != 'c';
      assert !OccursAt(s, "company", 0) by {
        if 7 <= |s| {
          assert s[..7][0] == s[0];
        }
      }
      if w != "shop" {
        assert !OccursAt(s, "shop", 0) by {
          if 4 <= |s| {
            assert s[..4][0] == s[0];
          }
        }
      }
    }
  }

  /** A keyword, then text with no digit or line break, then digits: the id is those digits. */
  lemma SellerIdAfterKeyword(w: string, gap: string, d: string, rest: string)
    requires w in SellerKeywords
    requires forall k :: 0 <= k < |gap| ==> !IsDigit(gap[k]) && !IsLineTerminator(gap[k])
    requires d != [] && AllDigits(d)
    requires rest == [] || !IsDigit(rest[0])
    ensures SellerIdFrom(w + gap + d + rest, 0) == Some(d)
  {
    var s := w + gap + d + rest;
    var j := |w| + |gap|;
    assert s[..|w|] == w;
    assert s[|w|..j] == gap;
    assert s[j..j + |d|] == d;
    assert IsDigit(s[j]) by {
      assert s[j] == d[0];
    }
    assert j + |d| < |s| ==> !IsDigit(s[j + |d|]) by {
      if j + |d| < |s| {
        assert s[j + |d|] == rest[0];
      }
    }
    KeywordAtStart(s, w);
    assert KeywordEnd(s, 0) == Some(|w|);
    FirstDigitAfterGap(s, |w|, gap);
    assert FirstDigitFrom(s, |w|) == Some(j);
    DigitRunOf(s, j, d);
    assert DigitRun(s, j) == d;
    assert SellerIdAt(s, 0) == Some(d);
    assert |s| > 0;
  }

  lemma {:induction false} FirstDigitAfterGap(s: string, e: nat, gap: string)
    requires e + |gap| < |s| && s[e..e + |gap|] == gap && IsDigit(s[e + |gap|])
    requires forall k :: 0 <= k < |gap| ==> !IsDigit(gap[k]) && !IsLineTerminator(gap[k])
    ensures FirstDigitFrom(s, e) == Some(e + |gap|)
    decreases |gap|
  {
    if gap != [] {
      assert s[e] == gap[0];
      assert s[e + 1..e + |gap|] == gap[1..];
      FirstDigitAfterGap(s, e + 1, gap[1..]);
    }
  }

  // =====================================================================
  // SKU data from an inline script

  predicate HasSkuKeys(text: string) {
    Contains(text, "skuMap") && Contains(text, "skuProps")
  }

  /** The first script mentioning both keys goes to the SKU parser; nothing without one. */
  function SkuDataOf(scripts: seq<string>, matcher: Matcher, parse: Parser): Option<SkuParser.ParsedSKUData> {
    match FirstIndex(scripts, HasSkuKeys)
    case None => None
    case Some(k) => SkuParser.SkuData(scripts[k], matcher, parse)
  }

  // =====================================================================
  // The raw record

  /** A DOM tier as the object `{ minQty, price }`. */
  function TierJson(t: DomPrices.DomTier): Json {
    JObj([("minQty", JNum(NatToString(t.minQty))), ("price", JNum(t.price))])
  }

  function StringsJson(xs: seq<string>): Json {
    JArr(seq(|xs|, k requires 0 <= k < |xs| => JStr(xs[k])))
  }

  /** The entries of an object literal; a key whose value is `undefined` is left out. */
  function Present(es: seq<(string, Value)>): Normalizer.Raw
    decreases |es|
  {
    if es == [] then []
    else if es[0].1.Some? then [(es[0].0, es[0].1.value)] + Present(es[1..])
    else Present(es[1..])
  }

  /** The value of the first entry written for `key` with a defined value. */
  function PresentValue(es: seq<(string, Value)>, key: string): Value
    decreases |es|
  {
    if es == [] then None
    else if es[0].0 == key && es[0].1.Some? then es[0].1
    else PresentValue(es[1..], key)
  }

  function Defined<T>(v: Option<T>, f: T -> Json): Value {
    if v.Some? then Some(f(v.value)) else None
  }

  /** The keys of `rawData` with their values, in the order written. */
  function RawEntries(id: string, title: string, images: seq<string>, prices: DomPrices.DomPrices,
                      supplier: Supplier, sku: Option<SkuParser.ParsedSKUData>): seq<(string, Value)>
  {
    var tiers := seq(|prices.tiers|, k requires 0 <= k < |prices.tiers| => TierJson(prices.tiers[k]));
    [("offerId", Some(JStr(id))), ("productId", Some(JStr(id))),
     ("subject", Some(JStr(title))), ("title", Some(JStr(title))),
     ("image", Some(StringsJson(images))), ("images", Some(StringsJson(images))),
     ("priceRange", if prices.tiers != [] then Some(JArr(tiers)) else None),
     ("price", Some(JNum(prices.basePrice))),
     ("sellerName", Defined(supplier.name, s => JStr(s))),
     ("companyName", Defined(supplier.name, s => JStr(s))),
     ("sellerId", Defined(supplier.id, s => JStr(s))),
     ("_skuMap", Defined(sku, (d: SkuParser.ParsedSKUData) => JArr(d.skuMap))),
     ("_skuImages", Defined(sku, (d: SkuParser.ParsedSKUData) => JObj(d.skuImages))),
     ("_extractionMethod", Some(JStr("dom-scraping")))]
  }

  /** The object literal `rawData`. */
  function RawOf(id: string, title: string, images: seq<string>, prices: DomPrices.DomPrices,
                 supplier: Supplier, sku: Option<SkuParser.ParsedSKUData>): Normalizer.Raw
  {
    Present(RawEntries(id, title, images, prices, supplier, sku))
  }

  /** `extractFromDOM()`: the first step that throws decides the error. */
  function ExtractFromDom(page: Page, matcher: Matcher, parse: Parser): Outcome<Normalizer.Raw> {
    var id :- ProductIdFromUrl(page.href);
    var title :- TitleFromDom(page);
    var images :- DomImages.ImagesFromDom(page.imagesOf);
    var prices :- DomPrices.PricesFromDom(page.textsOf(PriceSelector), page.tierRows);
    Ok(RawOf(id, title, images, prices, SupplierFromDom(page), SkuDataOf(page.scripts, matcher, parse)))
  }

  method ExtractFromDOM(page: Page, matcher: Matcher, parse: Parser) returns (r: Outcome<Normalizer.Raw>)
    ensures r == ExtractFromDom(page, matcher, parse)
  {
    var productId := ProductIdFromUrl(page.href);
    if productId.Err? {
      return Err(productId.error);
    }
    var title := ExtractTitleFromDom(page);
    if title.Err? {
      return Err(title.error);
    }
    var images := DomImages.ExtractImagesFromDom(page.imagesOf);
    if images.Err? {
      return Err(images.error);
    }
    var prices := DomPrices.ExtractPricesFromDom(page.textsOf(PriceSelector), page.tierRows);
    if prices.Err? {
      return Err(prices.error);
    }
    var supplier := ExtractSupplierFromDom(page);
    var skuData: Option<SkuParser.ParsedSKUData> := None;
    var k := FirstIndex(page.scripts, HasSkuKeys);
    if k.Some? {
      skuData := SkuParser.ExtractSKUDataFromScript(page.scripts[k.value], matcher, parse);
    }
    return Ok(RawOf(productId.value, title.value, images.value, prices.value, supplier, skuData));
  }

  // =====================================================================
  // properties of the whole

  /** The steps run in order and the first that throws gives its error; otherwise the record is assembled from the results. */
  lemma ExtractFromDomShape(page: Page, matcher: Matcher, parse: Parser)
    ensures var r := ExtractFromDom(page, matcher, parse);
      var id := ProductIdFromUrl(page.href);
      var title := TitleFromDom(page);
      var images := DomImages.ImagesFromDom(page.imagesOf);
      var prices := DomPrices.PricesFromDom(page.textsOf(PriceSelector), page.tierRows);
      && (r.Err? <==> id.Err? || title.Err? || images.Err? || prices.Err?)
      && (id.Err? ==> r == Err(Thrown(NoIdMessage)))
      && (id.Ok? && title.Err? ==> r == Err(Thrown(NoTitleMessage)))
      && (id.Ok? && title.Ok? && images.Err? ==> r == Err(Thrown(DomImages.NoImagesMessage)))
      && (id.Ok? && title.Ok? && images.Ok? && prices.Err? ==> r == Err(Thrown(DomPrices.NoPriceMessage)))
      && (r.Ok? ==> r.value == RawOf(id.value, title.value, images.value, prices.value,
                                     SupplierFromDom(page), SkuDataOf(page.scripts, matcher, parse)))
  {
    ExtractFromDomErrors(page, matcher, parse);
  }

  /** The error of the first step that throws. */
  lemma ExtractFromDomErrors(page: Page, matcher: Matcher, parse: Parser)
    ensures var r := ExtractFromDom(page, matcher, parse);
      var id := ProductIdFromUrl(page.href);
      var title := TitleFromDom(page);
      var images := DomImages.ImagesFromDom(page.imagesOf);
      var prices := DomPrices.PricesFromDom(page.textsOf(PriceSelector), page.tierRows);
      && (r.Err? <==> id.Err? || title.Err? || images.Err? || prices.Err?)
      && (id.Err? ==> r == Err(Thrown(NoIdMessage)))
      && (id.Ok? && title.Err? ==> r == Err(Thrown(NoTitleMessage)))
      && (id.Ok? && title.Ok? && images.Err? ==> r == Err(Thrown(DomImages.NoImagesMessage)))
      && (id.Ok? && title.Ok? && images.Ok? && prices.Err? ==> r == Err(Thrown(DomPrices.NoPriceMessage)))
  {
    StepErrors(page);
  }

  /** Each step throws its own message. */
  lemma StepErrors(page: Page)
    ensures TitleFromDom(page).Err? ==> TitleFromDom(page).error == Thrown(NoTitleMessage)
    ensures var images := DomImages.ImagesFromDom(page.imagesOf);
      images.Err? ==> images.error == Thrown(DomImages.NoImagesMessage)
    ensures var prices := DomPrices.PricesFromDom(page.textsOf(PriceSelector), page.tierRows);
      prices.Err? ==> prices.error == Thrown(DomPrices.NoPriceMessage)
  {
  }

  /** Reading a key of the literal finds the first defined value written for it. */
  lemma {:induction false} LookupPresent(es: seq<(string, Value)>, key: string)
    ensures Lookup(Present(es), key) == PresentValue(es, key)
    decreases |es|
  {
    if es != [] {
      LookupPresent(es[1..], key);
    }
  }

  /** One step of the reading: a written entry for the key, or on to the next one. */
  lemma PresentValueFrom(es: seq<(string, Value)>, i: nat, key: string)
    requires i < |es|
    ensures PresentValue(es[i..], key) == if es[i].0 == key && es[i].1.Some? then es[i].1 else PresentValue(es[i + 1..], key)
  {
    assert es[i..][0] == es[i] && es[i..][1..] == es[i + 1..];
  }

  /** The keys the normaliser reads the id and the title from. */
  lemma RawIdAndTitle(id: string, title: string, images: seq<string>, prices: DomPrices.DomPrices,
                      supplier: Supplier, sku: Option<SkuParser.ParsedSKUData>)
    ensures var raw := RawOf(id, title, images, prices, supplier, sku);
      && Lookup(raw, "offerId") == Some(JStr(id))
      && Lookup(raw, "subject") == Some(JStr(title))
      && Lookup(raw, "title") == Some(JStr(title))
      && Lookup(raw, "offerTitle").None?
      && Lookup(raw, "productName").None?
  {
    RawOfferId(id, title, images, prices, supplier, sku);
    RawTitles(id, title, images, prices, supplier, sku);
    RawNoOtherTitles(id, title, images, prices, supplier, sku);
  }

  /** The record carries the id under `offerId`. */
  lemma RawOfferId(id: string, title: string, images: seq<string>, prices: DomPrices.DomPrices,
                   supplier: Supplier, sku: Option<SkuParser.ParsedSKUData>)
    ensures Lookup(RawOf(id, title, images, prices, supplier, sku), "offerId") == Some(JStr(id))
  {
    var es := RawEntries(id, title, images, prices, supplier, sku);
    assert es[0..] == es;
    LookupPresent(es, "offerId");
    PresentValueFrom(es, 0, "offerId");
  }

  /** The record carries the title under `subject` and `title`. */
  lemma RawTitles(id: string, title: string, images: seq<string>, prices: DomPrices.DomPrices,
                  supplier: Supplier, sku: Option<SkuParser.ParsedSKUData>)
    ensures var raw := RawOf(id, title, images, prices, supplier, sku);
      Lookup(raw, "subject") == Some(JStr(title)) && Lookup(raw, "title") == Some(JStr(title))
  {
    var es := RawEntries(id, title, images, prices, supplier, sku);
    assert es[0..] == es;
    LookupPresent(es, "subject");
    PresentValueFrom(es, 0, "subject");
    PresentValueFrom(es, 1, "subject");
    PresentValueFrom(es, 2, "subject");
    LookupPresent(es, "title");
    PresentValueFrom(es, 0, "title");
    PresentValueFrom(es, 1, "title");
    PresentValueFrom(es, 2, "title");
    PresentValueFrom(es, 3, "title");
  }

  /** The record has no `offerTitle` and no `productName`. */
  lemma RawNoOtherTitles(id: string, title: string, images: seq<string>, prices: DomPrices.DomPrices,
                         supplier: Supplier, sku: Option<SkuParser.ParsedSKUData>)
    ensures var raw := RawOf(id, title, images, prices, supplier, sku);
      Lookup(raw, "offerTitle").None? && Lookup(raw, "productName").None?
  {
    var es := RawEntries(id, title, images, prices, supplier, sku);
    LookupPresent(es, "offerTitle");
    NoEntry(es, "offerTitle");
    LookupPresent(es, "productName");
    NoEntry(es, "productName");
  }

  /** The record carries the image list under `image`. */
  lemma RawImage(id: string, title: string, images: seq<string>, prices: DomPrices.DomPrices,
                 supplier: Supplier, sku: Option<SkuParser.ParsedSKUData>)
    ensures Lookup(RawOf(id, title, images, prices, supplier, sku), "image") == Some(StringsJson(images))
  {
    var es := RawEntries(id, title, images, prices, supplier, sku);
    assert es[0..] == es;
    LookupPresent(es, "image");
    PresentValueFrom(es, 0, "image");
    PresentValueFrom(es, 1, "image");
    PresentValueFrom(es, 2, "image");
    PresentValueFrom(es, 3, "image");
    PresentValueFrom(es, 4, "image");
  }

  /** The record carries the image list under `images` as well. */
  lemma RawImages(id: string, title: string, images: seq<string>, prices: DomPrices.DomPrices,
                 supplier: Supplier, sku: Option<SkuParser.ParsedSKUData>)
    ensures Lookup(RawOf(id, title, images, prices, supplier, sku), "images") == Some(StringsJson(images))
  {
    var es := RawEntries(id, title, images, prices, supplier, sku);
    assert es[0..] == es;
    LookupPresent(es, "images");
    PresentValueFrom(es, 0, "images");
    PresentValueFrom(es, 1, "images");
    PresentValueFrom(es, 2, "images");
    PresentValueFrom(es, 3, "images");
    PresentValueFrom(es, 4, "images");
    PresentValueFrom(es, 5, "images");
  }

  /** The record carries the base price under `price`. */
  lemma RawPrice(id: string, title: string, images: seq<string>, prices: DomPrices.DomPrices,
                 supplier: Supplier, sku: Option<SkuParser.ParsedSKUData>)
    ensures Lookup(RawOf(id, title, images, prices, supplier, sku), "price") == Some(JNum(prices.basePrice))
  {
    var es := RawEntries(id, title, images, prices, supplier, sku);
    assert es[0..] == es;
    LookupPresent(es, "price");
    PresentValueFrom(es, 0, "price");
    PresentValueFrom(es, 1, "price");
    PresentValueFrom(es, 2, "price");
    PresentValueFrom(es, 3, "price");
    PresentValueFrom(es, 4, "price");
    PresentValueFrom(es, 5, "price");
    PresentValueFrom(es, 6, "price");
    PresentValueFrom(es, 7, "price");
  }

  /** The record names its source: `_extractionMethod` is `dom-scraping`. */
  lemma RawMethod(id: string, title: string, images: seq<string>, prices: DomPrices.DomPrices,
                 supplier: Supplier, sku: Option<SkuParser.ParsedSKUData>)
    ensures Lookup(RawOf(id, title, images, prices, supplier, sku), "_extractionMethod") == Some(JStr("dom-scraping"))
  {
    var es := RawEntries(id, title, images, prices, supplier, sku);
    assert es[0..] == es;
    LookupPresent(es, "_extractionMethod");
    PresentValueFrom(es, 0, "_extractionMethod");
    PresentValueFrom(es, 1, "_extractionMethod");
    PresentValueFrom(es, 2, "_extractionMethod");
    PresentValueFrom(es, 3, "_extractionMethod");
    PresentValueFrom(es, 4, "_extractionMethod");
    PresentValueFrom(es, 5, "_extractionMethod");
    PresentValueFrom(es, 6, "_extractionMethod");
    PresentValueFrom(es, 7, "_extractionMethod");
    PresentValueFrom(es, 8, "_extractionMethod");
    PresentValueFrom(es, 9, "_extractionMethod");
    PresentValueFrom(es, 10, "_extractionMethod");
    PresentValueFrom(es, 11, "_extractionMethod");
    PresentValueFrom(es, 12, "_extractionMethod");
    PresentValueFrom(es, 13, "_extractionMethod");
  }

  /** The normaliser takes the offer id the record carries, whatever URL it is given. */
  lemma NormalizerKeepsProductId(id: string, title: string, images: seq<string>, prices: DomPrices.DomPrices,
                                 supplier: Supplier, sku: Option<SkuParser.ParsedSKUData>, url: string)
    requires id != []
    ensures Normalizer.ProductIdOf(RawOf(id, title, images, prices, supplier, sku), url) == Ok(id)
  {
    RawIdAndTitle(id, title, images, prices, supplier, sku);
  }

  /**
   * The normaliser keeps a non-empty trimmed title as it is, and throws on
   * the empty title a blank `og:title` gives.
   */
  lemma NormalizerTitle(id: string, title: string, images: seq<string>, prices: DomPrices.DomPrices,
                        supplier: Supplier, sku: Option<SkuParser.ParsedSKUData>)
    requires Trimmed(title)
    ensures Normalizer.TitleOf(RawOf(id, title, images, prices, supplier, sku))
      == if title != [] then Ok(title) else Err(Thrown(Normalizer.NoTitleMessage))
  {
    RawIdAndTitle(id, title, images, prices, supplier, sku);
    TitleFromSubject(RawOf(id, title, images, prices, supplier, sku), title);
  }

  /** The normaliser's title read of a record whose title keys are the given ones. */
  lemma TitleFromSubject(raw: Normalizer.Raw, title: string)
    requires Trimmed(title)
    requires Lookup(raw, "subject") == Some(JStr(title)) && Lookup(raw, "title") == Some(JStr(title))
    requires Lookup(raw, "offerTitle").None? && Lookup(raw, "productName").None?
    ensures Normalizer.TitleOf(raw) == if title != [] then Ok(title) else Err(Thrown(Normalizer.NoTitleMessage))
  {
    var keys := Normalizer.TitleKeys;
    assert keys[0] == "subject";
    if title != [] {
      assert Normalizer.FirstTruthy(raw, keys) == Some(JStr(title));
      assert JsonToStr(JStr(title)) == title;
      TrimOfTrimmed(title);
    } else {
      assert keys == ["subject", "title", "offerTitle", "productName"];
      assert forall k :: 0 <= k < |keys| ==> !Truthy(Lookup(raw, keys[k]));
    }
  }

  /** A key the literal never writes reads as `undefined`. */
  lemma {:induction false} NoEntry(es: seq<(string, Value)>, key: string)
    requires forall k :: 0 <= k < |es| ==> es[k].0 != key
    ensures PresentValue(es, key).None?
    decreases |es|
  {
    if es != [] {
      NoEntry(es[1..], key);
    }
  }

  /** The properties of a DOM tier's JSON as the normaliser reads them. */
  lemma TierJsonReads(t: DomPrices.DomTier)
    ensures Get(TierJson(t), "startQuantity").None? && Get(TierJson(t), "begin").None?
    ensures Get(TierJson(t), "endQuantity").None? && Get(TierJson(t), "end").None?
    ensures Get(TierJson(t), "price") == Some(JNum(t.price))
  {
    var f := TierJson(t).fields;
    assert f[0].0 == "minQty" && f[1..] == [("price", JNum(t.price))];
    assert Lookup(f, "price") == Lookup(f[1..], "price");
  }

  /** `Number()` of a positive decimal numeral is its value. */
  lemma PositiveDecimalNumber(s: string)
    requires DigitsDotDigits(s) && DecimalValue(s) > 0.0
    ensures StringToNumber(s) == Finite(DecimalValue(s))
  {
    ZeroNumerals();
    NumberOfDecimalLiteral(s);
  }

  /** The empty numeral and a lone point have value zero. */
  lemma ZeroNumerals()
    ensures DecimalValue([]) == 0.0 && DecimalValue(".") == 0.0
  {
    assert IndexOf(".", ".") == Some(0) by {
      assert OccursAt(".", ".", 0);
    }
  }

  /**
   * The normaliser reads a tier by `startQuantity` or `begin`, which a DOM
   * tier does not have: every DOM tier becomes a tier of quantity 1 with
   * no upper bound, at the tier's price.
   */
  lemma NormalizerReadsDomTierAsQuantityOne(t: DomPrices.DomTier)
    requires DecimalValue(t.price) > 0.0
    ensures Normalizer.TierOf(TierJson(t)) == ProductSchema.PriceTier(Finite(1.0), None, Finite(DecimalValue(t.price)))
  {
    var j := TierJson(t);
    TierJsonReads(t);
    Normalizer.MinQtyDefault(j);
    assert Normalizer.MaxQtyOf(j) == None;
    PositiveDecimalNumber(t.price);
    var p := Some(JNum(t.price));
    assert Truthy(p);
    assert Or(Get(j, "price"), Get(j, "value")) == p;
    assert ToNumber(p) == Finite(DecimalValue(t.price));
  }

  /**
   * The tier object as the normaliser expects it, with the quantity under
   * `startQuantity`: every tier of positive quantity keeps its quantity.
   */
  function TierJsonForNormalizer(t: DomPrices.DomTier): Json {
    JObj([("startQuantity", JNum(NatToString(t.minQty))), ("price", JNum(t.price))])
  }

  /** The normaliser reads a tier written with `startQuantity` as that quantity, unbounded, at the tier's price. */
  lemma NormalizerReadsCorrectedTier(t: DomPrices.DomTier)
    requires t.minQty > 0 && DecimalValue(t.price) > 0.0
    ensures Normalizer.TierOf(TierJsonForNormalizer(t)) == ProductSchema.PriceTier(Finite(t.minQty as real), None, Finite(DecimalValue(t.price)))
  {
    var j := TierJsonForNormalizer(t);
    var f := j.fields;
    var q := Some(JNum(NatToString(t.minQty)));
    assert f[0].0 == "startQuantity" && f[1..] == [("price", JNum(t.price))];
    assert Lookup(f, "price") == Lookup(f[1..], "price");
    assert Get(j, "startQuantity") == q;
    assert Get(j, "endQuantity").None? && Get(j, "end").None?;
    NumberOfNatString(t.minQty);
    assert Truthy(q);
    assert Normalizer.MinQtyOf(j) == Finite(t.minQty as real);
    assert Normalizer.MaxQtyOf(j) == None;
    PositiveDecimalNumber(t.price);
    var p := Some(JNum(t.price));
    assert Truthy(p);
    assert Or(Get(j, "price"), Get(j, "value")) == p;
    assert ToNumber(p) == Finite(DecimalValue(t.price));
  }
}
