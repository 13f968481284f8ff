/**
 * `extractProductData()`: the content script's entry point. It tries six
 * strategies in a fixed order and returns what the first one finds: three
 * window globals, the `application/json` script tags, the inline scripts
 * searched with five assignment patterns, and the DOM extractor. Only when
 * every one fails does it throw, with a message that describes the page.
 */
module JsonExtractor {
  import opened Wrappers
  import opened Text
  import opened Js
  import opened Seqs
  import opened Urls
  import opened Oracles
  import DomExtractor
  import Normalizer
  import DomImages
  import DomPrices

  /** A `<script>` element: its text, whether its type is `application/json`, whether it has a `src`. */
  datatype Script = Script(text: string, jsonType: bool, hasSrc: bool)

  /** Reading `window[key]`: the value found, or an exception. */
  datatype Global = Reads(value: Value) | Throws

  /**
   * The page as the extractor sees it: what the DOM extractor reads, every
   * `<script>` in document order, and the window's globals.
   */
  datatype Document = Document(page: DomExtractor.Page, scripts: seq<Script>, globals: string -> Global)

  const IdKeys: seq<string> := ["offerId", "productId", "id"]
  const TitleKeys: seq<string> := ["subject", "title", "offerTitle", "productName"]
  const PriceKeys: seq<string> := ["priceRange", "price", "salePrice", "consignPrice", "skuPrices"]
  const ImageKeys: seq<string> := ["image", "images", "offerImgList", "mainImage"]

  const DebugImageSelector := "img[src*=\"cbu\"], img[data-src*=\"cbu\"]"

  // =====================================================================
  // The shape test

  /** `data && typeof data === 'object'`. */
  predicate IsObject(data: Json) {
    data.JObj? || data.JArr?
  }

  /** The properties `data.k` for the keys in order. */
  function Props(data: Json, keys: seq<string>): (r: seq<Value>)
    ensures |r| == |keys| && forall k :: 0 <= k < |keys| ==> r[k] == Get(data, keys[k])
  {
    seq(|keys|, k requires 0 <= k < |keys| => Get(data, keys[k]))
  }

  /** `!!(data.k0 || data.k1 || ...)`: some listed property is truthy. */
  function AnyTruthy(data: Json, keys: seq<string>): (r: bool)
    requires |keys| > 0
    ensures r <==> exists k :: 0 <= k < |keys| && Truthy(Get(data, keys[k]))
  {
    Truthy(OrChain(Props(data, keys)))
  }

  /** `hasProductData(data)`: an object with an id and a title, a price or images. */
  predicate HasProductData(data: Json) {
    IsObject(data)
    && AnyTruthy(data, IdKeys)
    && (AnyTruthy(data, TitleKeys) || AnyTruthy(data, PriceKeys) || AnyTruthy(data, ImageKeys))
  }

  /**
   * The test holds exactly for an object with a truthy id-like field and a
   * truthy title-, price- or image-like field; an array never passes, as
   * none of those properties exists on it.
   */
  lemma HasProductDataIff(data: Json)
    ensures HasProductData(data) <==>
      data.JObj?
      && (Truthy(Get(data, "offerId")) || Truthy(Get(data, "productId")) || Truthy(Get(data, "id")))
      && ((exists k :: 0 <= k < |TitleKeys| && Truthy(Get(data, TitleKeys[k])))
          || (exists k :: 0 <= k < |PriceKeys| && Truthy(Get(data, PriceKeys[k])))
          || (exists k :: 0 <= k < |ImageKeys| && Truthy(Get(data, ImageKeys[k]))))
  {
    if AnyTruthy(data, IdKeys) {
      var k :| 0 <= k < |IdKeys| && Truthy(Get(data, IdKeys[k]));
      assert k == 0 || k == 1 || k == 2;
    }
    if Truthy(Get(data, "offerId")) { assert Truthy(Get(data, IdKeys[0])); }
    if Truthy(Get(data, "productId")) { assert Truthy(Get(data, IdKeys[1])); }
    if Truthy(Get(data, "id")) { assert Truthy(Get(data, IdKeys[2])); }
  }

  /** A record passes when its `offerId` and its `image` are truthy. */
  lemma RecordWithIdAndImagePasses(raw: Normalizer.Raw)
    requires Truthy(Lookup(raw, "offerId")) && Truthy(Lookup(raw, "image"))
    ensures HasProductData(JObj(raw))
  {
    assert Truthy(Get(JObj(raw), IdKeys[0]));
    assert Truthy(Get(JObj(raw), ImageKeys[0]));
  }

  /** A value that is found and passes the test `accept`. */
  predicate Passing(d: Option<Json>, accept: Json -> bool) {
    d.Some? && accept(d.value)
  }

  // =====================================================================
  // Strategies 1-3: window globals

  /** `tryExtractFromWindow(key)`: the global when it is an object passing the test; an exception gives null. */
  function WindowData(globals: string -> Global, key: string): (r: Option<Json>)
    ensures r.Some? <==> globals(key).Reads? && Passing(globals(key).value, HasProductData)
    ensures r.Some? ==> r == globals(key).value
  {
    match globals(key)
    case Throws => None
    case Reads(v) => if Truthy(v) && IsObject(v.value) && HasProductData(v.value) then v else None
  }

  // =====================================================================
  // Strategy 4: JSON script tags
  //
  // The two script strategies are stated for any shape test `accept`; the
  // extractor uses them with `HasProductData`.

  /** `querySelectorAll('script[type="application/json"]')`, as texts. */
  function JsonTagTexts(scripts: seq<Script>): seq<string> {
    var tags := Filter(scripts, (s: Script) => s.jsonType);
    seq(|tags|, k requires 0 <= k < |tags| => tags[k].text)
  }

  /** A text that parses to a value passing the test. */
  function ParsesAndPasses(parse: Parser, accept: Json -> bool): string -> bool {
    (t: string) => Passing(parse(t), accept)
  }

  /** `tryExtractFromScriptTags()`: the first tag, in document order, that parses and passes. */
  function TagData(tags: seq<string>, parse: Parser, accept: Json -> bool): Option<Json> {
    match FirstIndex(tags, ParsesAndPasses(parse, accept))
    case None => None
    case Some(k) => parse(tags[k])
  }

  /** The loop over the tags; a tag that does not parse is skipped. */
  method TryExtractFromScriptTags(tags: seq<string>, parse: Parser, accept: Json -> bool) returns (r: Option<Json>)
    ensures r == TagData(tags, parse, accept)
  {
    for k := 0 to |tags|
      invariant forall j :: 0 <= j < k ==> !ParsesAndPasses(parse, accept)(tags[j])
    {
      var data := parse(tags[k]);
      if data.None? {
        continue;
      }
      if accept(data.value) {
        FirstIndexAt(tags, ParsesAndPasses(parse, accept), k);
        return data;
      }
    }
    return None;
  }

  /** The tag strategy finds a value exactly when some tag gives one, and it is the first such tag's. */
  lemma TagDataFirst(tags: seq<string>, parse: Parser, accept: Json -> bool)
    ensures TagData(tags, parse, accept).Some? <==> exists k :: 0 <= k < |tags| && Passing(parse(tags[k]), accept)
    ensures TagData(tags, parse, accept).Some? ==> exists k :: (0 <= k < |tags|
      && TagData(tags, parse, accept) == parse(tags[k]) && Passing(parse(tags[k]), accept)
      && forall j :: 0 <= j < k ==> !Passing(parse(tags[j]), accept))
  {
    var p := ParsesAndPasses(parse, accept);
    match FirstIndex(tags, p)
    case None =>
      forall k | 0 <= k < |tags|
        ensures !Passing(parse(tags[k]), accept)
      {
        assert !p(tags[k]);
      }
    case Some(k) =>
      assert p(tags[k]);
      forall j | 0 <= j < k
        ensures !Passing(parse(tags[j]), accept)
      {
        assert !p(tags[j]);
      }
  }

  // =====================================================================
  // Strategy 5: inline scripts

  /** `querySelectorAll('script:not([src])')`, as texts. */
  function InlineTexts(scripts: seq<Script>): seq<string> {
    var inline := Filter(scripts, (s: Script) => !s.hasSrc);
    seq(|inline|, k requires 0 <= k < |inline| => inline[k].text)
  }

  /** The searches of one script: the patterns, `text.match` and `JSON.parse`. */
  datatype Search = Search(patterns: seq<Pattern>, matcher: Matcher, parse: Parser, accept: Json -> bool)

  /** One pattern on one script: a non-empty capture that parses to a value passing the test. */
  function PatternHit(content: string, pattern: Pattern, q: Search): (r: Option<Json>)
    ensures r.Some? <==> q.matcher(pattern, content).Some? && q.matcher(pattern, content).value != []
                         && Passing(q.parse(q.matcher(pattern, content).value), q.accept)
    ensures r.Some? ==> r == q.parse(q.matcher(pattern, content).value)
  {
    var m := q.matcher(pattern, content);
    if m.Some? && m.value != [] then
      var data := q.parse(m.value);
      if data.Some? && q.accept(data.value) then data else None
    else None
  }

  function PatternHits(content: string, q: Search): Pattern -> bool {
    (p: Pattern) => PatternHit(content, p, q).Some?
  }

  /** The inner loop: the first pattern that hits on the script. */
  function ScriptHit(content: string, q: Search): Option<Json> {
    match FirstIndex(q.patterns, PatternHits(content, q))
    case None => None
    case Some(j) => PatternHit(content, q.patterns[j], q)
  }

  function ScriptHits(q: Search): string -> bool {
    (s: string) => ScriptHit(s, q).Some?
  }

  /** `tryExtractFromInlineScripts()`: the outer loop, the first script with a hit. */
  function InlineData(scripts: seq<string>, q: Search): Option<Json> {
    match FirstIndex(scripts, ScriptHits(q))
    case None => None
    case Some(i) => ScriptHit(scripts[i], q)
  }

  /** The pattern loop over one script; a capture that does not parse is skipped. */
  method TryPatterns(content: string, q: Search) returns (r: Option<Json>)
    ensures r == ScriptHit(content, q)
  {
    for j := 0 to |q.patterns|
      invariant forall i :: 0 <= i < j ==> !PatternHits(content, q)(q.patterns[i])
    {
      var m := q.matcher(q.patterns[j], content);
      if m.Some? && m.value != [] {
        var data := q.parse(m.value);
        if data.None? {
          continue;
        }
        if q.accept(data.value) {
          FirstIndexAt(q.patterns, PatternHits(content, q), j);
          return data;
        }
      }
    }
    return None;
  }

  /** The script loop: scripts outside, patterns inside. */
  method TryExtractFromInlineScripts(scripts: seq<string>, q: Search) returns (r: Option<Json>)
    ensures r == InlineData(scripts, q)
  {
    for i := 0 to |scripts|
      invariant forall k :: 0 <= k < i ==> !ScriptHits(q)(scripts[k])
    {
      var hit := TryPatterns(scripts[i], q);
      if hit.Some? {
        FirstIndexAt(scripts, ScriptHits(q), i);
        return hit;
      }
    }
    return None;
  }

  /** A hit on one script is that of the first pattern that hits. */
  lemma ScriptHitFirst(content: string, q: Search)
    ensures ScriptHit(content, q).Some? ==> exists j :: (0 <= j < |q.patterns|
      && ScriptHit(content, q) == PatternHit(content, q.patterns[j], q)
      && PatternHit(content, q.patterns[j], q).Some?
      && forall i :: 0 <= i < j ==> PatternHit(content, q.patterns[i], q).None?)
    ensures ScriptHit(content, q).None? ==>
      forall j :: 0 <= j < |q.patterns| ==> PatternHit(content, q.patterns[j], q).None?
  {
    var p := PatternHits(content, q);
    match FirstIndex(q.patterns, p)
    case None =>
      forall j | 0 <= j < |q.patterns|
        ensures PatternHit(content, q.patterns[j], q).None?
      {
        assert !p(q.patterns[j]);
      }
    case Some(j) =>
      assert p(q.patterns[j]);
      forall i | 0 <= i < j
        ensures PatternHit(content, q.patterns[i], q).None?
      {
        assert !p(q.patterns[i]);
      }
  }

  /**
   * The inline strategy returns the hit of the first (script, pattern) pair
   * in the order scripts first, then patterns, and nothing when no pair hits.
   */
  lemma InlineDataFirst(scripts: seq<string>, q: Search)
    ensures InlineData(scripts, q).Some? ==> exists i, j :: (
      0 <= i < |scripts| && 0 <= j < |q.patterns|
      && InlineData(scripts, q) == PatternHit(scripts[i], q.patterns[j], q)
      && PatternHit(scripts[i], q.patterns[j], q).Some?
      && (forall k, l :: 0 <= k < i && 0 <= l < |q.patterns| ==> PatternHit(scripts[k], q.patterns[l], q).None?)
      && (forall l :: 0 <= l < j ==> PatternHit(scripts[i], q.patterns[l], q).None?))
    ensures InlineData(scripts, q).None? ==>
      forall k, l :: 0 <= k < |scripts| && 0 <= l < |q.patterns| ==> PatternHit(scripts[k], q.patterns[l], q).None?
  {
    var p := ScriptHits(q);
    match FirstIndex(scripts, p)
    case None =>
      forall k, l | 0 <= k < |scripts| && 0 <= l < |q.patterns|
        ensures PatternHit(scripts[k], q.patterns[l], q).None?
      {
        assert !p(scripts[k]);
        ScriptHitFirst(scripts[k], q);
      }
    case Some(i) =>
      assert p(scripts[i]);
      ScriptHitFirst(scripts[i], q);
      forall k, l | 0 <= k < i && 0 <= l < |q.patterns|
        ensures PatternHit(scripts[k], q.patterns[l], q).None?
      {
        assert !p(scripts[k]);
        ScriptHitFirst(scripts[k], q);
      }
  }

  // =====================================================================
  // Strategy 6 and the chain

  /** The five inline-script patterns in order, with the shape test. */
  function InlineSearch(matcher: Matcher, parse: Parser): Search {
    Search(InlinePatterns, matcher, parse, HasProductData)
  }

  /** The page the DOM extractor reads: its scripts are the document's inline scripts. */
  function DomPage(doc: Document): DomExtractor.Page {
    doc.page.(scripts := InlineTexts(doc.scripts))
  }

  /** `extractFromDOM()` inside `try`: an exception gives nothing. */
  function DomData(doc: Document, matcher: Matcher, parse: Parser): Option<Json> {
    match DomExtractor.ExtractFromDom(DomPage(doc), matcher, parse)
    case Ok(raw) => Some(JObj(raw))
    case Err(_) => None
  }

  /** `getDebugInfo()`. */
  datatype DebugInfo = DebugInfo(url: string, scriptCount: nat, scriptsWithOfferId: nat, priceElements: nat, images: nat)

  predicate MentionsOfferId(s: Script) {
    Contains(s.text, "offerId")
  }

  function DebugInfoOf(doc: Document): (r: DebugInfo)
    ensures r.scriptsWithOfferId <= r.scriptCount
  {
    DebugInfo(doc.page.href, |doc.scripts|, |Filter(doc.scripts, MentionsOfferId)|,
              |doc.page.textsOf(DomExtractor.PriceSelector)|, |doc.page.imagesOf(DebugImageSelector)|)
  }

  /** The message thrown when every strategy fails. */
  function FailureMessage(info: DebugInfo): string {
    "Could not extract product data from this page.\n\n"
    + "Debug Information:\n"
    + "- URL: " + info.url + "\n"
    + "- Scripts found: " + NatToString(info.scriptCount) + "\n"
    + "- Scripts with \"offerId\": " + NatToString(info.scriptsWithOfferId) + "\n"
    + "- Price elements: " + NatToString(info.priceElements) + "\n"
    + "- Images found: " + NatToString(info.images) + "\n\n"
    + "Please ensure you are on a valid 1688 product detail page.\n"
    + "If the problem persists, please report this issue."
  }

  /** The strategies' results in priority order. */
  function Strategies(doc: Document, matcher: Matcher, parse: Parser): seq<Option<Json>> {
    [WindowData(doc.globals, "__INITIAL_STATE__"),
     WindowData(doc.globals, "detailData"),
     WindowData(doc.globals, "offerData"),
     TagData(JsonTagTexts(doc.scripts), parse, HasProductData),
     InlineData(InlineTexts(doc.scripts), InlineSearch(matcher, parse)),
     DomData(doc, matcher, parse)]
  }

  /** An early-return chain: the first result found is returned, and `failure` is thrown after the last. */
  function Chain(results: seq<Option<Json>>, failure: Error): Outcome<Json>
    decreases |results|
  {
    if results == [] then Err(failure)
    else if results[0].Some? then Ok(results[0].value)
    else Chain(results[1..], failure)
  }

  /** The chain over six results, written out. */
  lemma ChainOfSix(a: Option<Json>, b: Option<Json>, c: Option<Json>, d: Option<Json>, e: Option<Json>,
                   f: Option<Json>, failure: Error)
    ensures Chain([a, b, c, d, e, f], failure) ==
      if a.Some? then Ok(a.value) else if b.Some? then Ok(b.value) else if c.Some? then Ok(c.value)
      else if d.Some? then Ok(d.value) else if e.Some? then Ok(e.value) else if f.Some? then Ok(f.value)
      else Err(failure)
  {
    assert [f][1..] == [];
    assert Chain([f], failure) == if f.Some? then Ok(f.value) else Err(failure);
    assert [e, f][1..] == [f];
    assert Chain([e, f], failure) == if e.Some? then Ok(e.value) else Chain([f], failure);
    assert [d, e, f][1..] == [e, f];
    assert Chain([d, e, f], failure) == if d.Some? then Ok(d.value) else Chain([e, f], failure);
    assert [c, d, e, f][1..] == [d, e, f];
    assert Chain([c, d, e, f], failure) == if c.Some? then Ok(c.value) else Chain([d, e, f], failure);
    assert [b, c, d, e, f][1..] == [c, d, e, f];
    assert Chain([b, c, d, e, f], failure) == if b.Some? then Ok(b.value) else Chain([c, d, e, f], failure);
    assert [a, b, c, d, e, f][1..] == [b, c, d, e, f];
  }

  /** `extractProductData()`: the chain of the six strategies. */
  function ProductData(doc: Document, matcher: Matcher, parse: Parser): Outcome<Json> {
    Chain(Strategies(doc, matcher, parse), Thrown(FailureMessage(DebugInfoOf(doc))))
  }

  method ExtractProductData(doc: Document, matcher: Matcher, parse: Parser) returns (r: Outcome<Json>)
    ensures r == ProductData(doc, matcher, parse)
  {
    ChainOfSix(WindowData(doc.globals, "__INITIAL_STATE__"), WindowData(doc.globals, "detailData"),
               WindowData(doc.globals, "offerData"), TagData(JsonTagTexts(doc.scripts), parse, HasProductData),
               InlineData(InlineTexts(doc.scripts), InlineSearch(matcher, parse)), DomData(doc, matcher, parse),
               Thrown(FailureMessage(DebugInfoOf(doc))));
    var initialState := WindowData(doc.globals, "__INITIAL_STATE__");
    if initialState.Some? {
      return Ok(initialState.value);
    }
    var detailData := WindowData(doc.globals, "detailData");
    if detailData.Some? {
      return Ok(detailData.value);
    }
    var offerData := WindowData(doc.globals, "offerData");
    if offerData.Some? {
      return Ok(offerData.value);
    }
    var scriptData := TryExtractFromScriptTags(JsonTagTexts(doc.scripts), parse, HasProductData);
    if scriptData.Some? {
      return Ok(scriptData.value);
    }
    var inlineScriptData := TryExtractFromInlineScripts(InlineTexts(doc.scripts), InlineSearch(matcher, parse));
    if inlineScriptData.Some? {
      return Ok(inlineScriptData.value);
    }
    var domData := DomExtractor.ExtractFromDOM(DomPage(doc), matcher, parse);
    if domData.Ok? {
      return Ok(JObj(domData.value));
    }
    return Err(Thrown(FailureMessage(DebugInfoOf(doc))));
  }

  predicate Found(o: Option<Json>) {
    o.Some?
  }

  /** The chain returns the first result found, and throws `failure` only when none is. */
  lemma {:induction false} ChainIsFirstFound(results: seq<Option<Json>>, failure: Error)
    ensures match FirstIndex(results, Found)
      case None => Chain(results, failure) == Err(failure)
      case Some(k) => Chain(results, failure) == Ok(results[k].value)
    decreases |results|
  {
    if results != [] && !Found(results[0]) {
      ChainIsFirstFound(results[1..], failure);
      assert forall k :: 0 <= k < |results| - 1 ==> results[1..][k] == results[k + 1];
    }
  }

  /** When every result found passes `accept`, so does the chain's value; it throws exactly when nothing is found. */
  lemma {:induction false} ChainAccepted(results: seq<Option<Json>>, failure: Error, accept: Json -> bool)
    requires forall k :: 0 <= k < |results| && results[k].Some? ==> accept(results[k].value)
    ensures Chain(results, failure).Ok? ==> accept(Chain(results, failure).value)
    ensures Chain(results, failure).Err? <==> forall k :: 0 <= k < |results| ==> results[k].None?
    ensures Chain(results, failure).Err? ==> Chain(results, failure).error == failure
    decreases |results|
  {
    if results != [] && results[0].None? {
      assert forall k :: 0 <= k < |results| - 1 ==> results[1..][k] == results[k + 1];
      ChainAccepted(results[1..], failure, accept);
      assert forall k :: 1 <= k < |results| ==> results[k] == results[1..][k - 1];
    }
  }

  /**
   * The extractor returns the value of the first strategy, in priority
   * order, that finds one, and throws the page description only when none
   * does.
   */
  lemma ProductDataIsFirstFound(doc: Document, matcher: Matcher, parse: Parser)
    ensures var r := ProductData(doc, matcher, parse);
      var s := Strategies(doc, matcher, parse);
      match FirstIndex(s, Found)
      case None => r == Err(Thrown(FailureMessage(DebugInfoOf(doc))))
      case Some(k) => r == Ok(s[k].value)
  {
    ChainIsFirstFound(Strategies(doc, matcher, parse), Thrown(FailureMessage(DebugInfoOf(doc))));
  }

  /** The DOM extractor's record always passes the shape test: it has an id and a non-empty image list. */
  lemma DomRecordPasses(page: DomExtractor.Page, matcher: Matcher, parse: Parser)
    requires DomExtractor.ExtractFromDom(page, matcher, parse).Ok?
    ensures HasProductData(JObj(DomExtractor.ExtractFromDom(page, matcher, parse).value))
  {
    DomExtractor.ExtractFromDomShape(page, matcher, parse);
    var id := DomExtractor.ProductIdFromUrl(page.href).value;
    var title := DomExtractor.TitleFromDom(page).value;
    var images := DomImages.ImagesFromDom(page.imagesOf).value;
    var prices := DomPrices.PricesFromDom(page.textsOf(DomExtractor.PriceSelector), page.tierRows).value;
    var supplier := DomExtractor.SupplierFromDom(page);
    var sku := DomExtractor.SkuDataOf(page.scripts, matcher, parse);
    DomExtractor.RawIdAndTitle(id, title, images, prices, supplier, sku);
    DomExtractor.RawImage(id, title, images, prices, supplier, sku);
    RecordWithIdAndImagePasses(DomExtractor.RawOf(id, title, images, prices, supplier, sku));
  }

  /** What the tag strategy finds passes the test. */
  lemma TagDataAccepted(tags: seq<string>, parse: Parser, accept: Json -> bool)
    ensures TagData(tags, parse, accept).Some? ==> accept(TagData(tags, parse, accept).value)
  {
    var p := ParsesAndPasses(parse, accept);
    match FirstIndex(tags, p)
    case None =>
    case Some(k) => assert p(tags[k]);
  }

  /** What the inline strategy finds passes the test. */
  lemma InlineDataAccepted(scripts: seq<string>, q: Search)
    ensures InlineData(scripts, q).Some? ==> q.accept(InlineData(scripts, q).value)
  {
    match FirstIndex(scripts, ScriptHits(q))
    case None =>
    case Some(i) =>
      match FirstIndex(q.patterns, PatternHits(scripts[i], q))
      case None =>
      case Some(j) =>
  }

  /**
   * Whatever the extractor returns passes the shape test, and it throws
   * exactly when all six strategies come back empty.
   */
  lemma ProductDataShape(doc: Document, matcher: Matcher, parse: Parser)
    ensures var r := ProductData(doc, matcher, parse);
      && (r.Ok? ==> HasProductData(r.value))
      && (r.Err? <==> forall k :: 0 <= k < 6 ==> Strategies(doc, matcher, parse)[k].None?)
      && (r.Err? ==> r.error == Thrown(FailureMessage(DebugInfoOf(doc))))
  {
    StrategiesAccepted(doc, matcher, parse);
    ChainAccepted(Strategies(doc, matcher, parse), Thrown(FailureMessage(DebugInfoOf(doc))), HasProductData);
  }

  /** Every strategy's result passes the shape test. */
  lemma StrategiesAccepted(doc: Document, matcher: Matcher, parse: Parser)
    ensures forall k :: 0 <= k < |Strategies(doc, matcher, parse)| && Strategies(doc, matcher, parse)[k].Some? ==>
      HasProductData(Strategies(doc, matcher, parse)[k].value)
  {
    var s := Strategies(doc, matcher, parse);
    var q := InlineSearch(matcher, parse);
    TagDataAccepted(JsonTagTexts(doc.scripts), parse, HasProductData);
    InlineDataAccepted(InlineTexts(doc.scripts), q);
    assert q.accept == HasProductData;
    DomDataAccepted(doc, matcher, parse);
    forall k | 0 <= k < |s| && s[k].Some?
      ensures HasProductData(s[k].value)
    {
      if k == 0 {
        assert s[k] == WindowData(doc.globals, "__INITIAL_STATE__");
      } else if k == 1 {
        assert s[k] == WindowData(doc.globals, "detailData");
      } else if k == 2 {
        assert s[k] == WindowData(doc.globals, "offerData");
      } else if k == 3 {
        assert s[k] == TagData(JsonTagTexts(doc.scripts), parse, HasProductData);
      } else if k == 4 {
        assert s[k] == InlineData(InlineTexts(doc.scripts), q);
      } else {
        assert s[k] == DomData(doc, matcher, parse);
      }
    }
  }

  lemma DomDataAccepted(doc: Document, matcher: Matcher, parse: Parser)
    ensures DomData(doc, matcher, parse).Some? ==> HasProductData(DomData(doc, matcher, parse).value)
  {
    if DomExtractor.ExtractFromDom(DomPage(doc), matcher, parse).Ok? {
      DomRecordPasses(DomPage(doc), matcher, parse);
    }
  }

  // =====================================================================
  // Page info

  /** `getPageInfo()`. */
  datatype PageInfo = PageInfo(url: string, isDetailPage: bool, offerId: Option<string>)

  function PageInfoOf(url: string): PageInfo {
    PageInfo(url, Contains(url, "detail.1688.com") || Contains(url, "offer"), OfferId(url))
  }

  /**
   * A page is a detail page exactly when its URL mentions `detail.1688.com`
   * or `offer`; an offer id, a non-empty digit run, is found only on a
   * detail page.
   */
  lemma PageInfoShape(url: string)
    ensures PageInfoOf(url).isDetailPage <==> Contains(url, "detail.1688.com") || Contains(url, "offer")
    ensures PageInfoOf(url).offerId.Some? ==> PageInfoOf(url).isDetailPage
    ensures PageInfoOf(url).offerId.Some? ==>
      PageInfoOf(url).offerId.value != [] && AllDigits(PageInfoOf(url).offerId.value)
  {
    OfferIdShape(url);
    if OfferId(url).Some? {
      var i: nat :| OfferMatchAt(url, i);
      assert url[i..i + 5] == url[i..i + 6][..5];
      ContainsAt(url, "offer", i);
    }
  }
}
