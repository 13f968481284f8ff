/**
 * The normalised 1688 product and the schema it must satisfy: a price tier,
 * a SKU variation and the product record, each with the validity rule its
 * schema object enforces. Checking a URL and an ISO date-time are left to
 * two oracle predicates.
 */
module ProductSchema {
  import opened Wrappers
  import opened Js
  import opened Oracles

  /** A quantity price tier; no relation between `minQty` and `maxQty` is required. */
  datatype PriceTier = PriceTier(minQty: Number, maxQty: Option<Number>, price: Number)

  /** Attribute name to value; a value may be missing or of any kind before validation. */
  type Attributes = seq<(string, Value)>

  datatype SkuVariation = SkuVariation(
    attributes: Attributes,
    price: Option<Number>,
    stock: Option<Number>,
    skuId: Option<string>,
    image: Value)

  datatype Images = Images(main: seq<string>, detail: seq<string>)

  /** The optional string fields hold what the raw record had, of whatever kind. */
  datatype Product = Product(
    sourceUrl: string,
    productId: string,
    title: string,
    description: Option<string>,
    priceTiers: seq<PriceTier>,
    currency: string,
    skus: seq<SkuVariation>,
    weight: Option<Number>,
    shippingTemplateId: Value,
    images: Images,
    supplierId: Value,
    supplierName: Value,
    categoryId: Value,
    categoryName: Value,
    extractedAt: string,
    extractedBy: string)

  const Currency := "CNY"
  const ExtractedBy := "ecomate-extension"

  /** `z.number().positive()`: a number (not NaN) above zero. */
  predicate Positive(n: Number) {
    n.Finite? && n.value > 0.0
  }

  /** `z.number().int()`. */
  predicate Integer(n: Number) {
    n.Finite? && n.value.Floor as real == n.value
  }

  predicate PositiveInteger(n: Number) {
    Integer(n) && Positive(n)
  }

  /** `z.string().optional()`: absent or a string (null is rejected). */
  predicate OptionalString(v: Value) {
    v.None? || v.value.JStr?
  }

  predicate ValidPriceTier(t: PriceTier) {
    PositiveInteger(t.minQty)
    && (t.maxQty.Some? ==> PositiveInteger(t.maxQty.value))
    && Positive(t.price)
  }

  predicate ValidSku(s: SkuVariation, isUrl: FormatCheck) {
    (forall k :: 0 <= k < |s.attributes| ==> s.attributes[k].1.Some? && s.attributes[k].1.value.JStr?)
    && (s.price.Some? ==> Positive(s.price.value))
    && (s.stock.Some? ==> Integer(s.stock.value) && s.stock.value.value >= 0.0)
    && (s.image.None? || (s.image.value.JStr? && isUrl(s.image.value.s)))
  }

  predicate AllUrls(urls: seq<string>, isUrl: FormatCheck) {
    forall k :: 0 <= k < |urls| ==> isUrl(urls[k])
  }

  /** `Product1688Schema`: the record the normaliser may return. */
  predicate ValidProduct(p: Product, isUrl: FormatCheck, isDatetime: FormatCheck) {
    isUrl(p.sourceUrl)
    && |p.priceTiers| >= 1
    && (forall k :: 0 <= k < |p.priceTiers| ==> ValidPriceTier(p.priceTiers[k]))
    && p.currency == Currency
    && (forall k :: 0 <= k < |p.skus| ==> ValidSku(p.skus[k], isUrl))
    && (p.weight.Some? ==> Positive(p.weight.value))
    && OptionalString(p.shippingTemplateId)
    && |p.images.main| >= 1 && AllUrls(p.images.main, isUrl)
    && AllUrls(p.images.detail, isUrl)
    && OptionalString(p.supplierId) && OptionalString(p.supplierName)
    && OptionalString(p.categoryId) && OptionalString(p.categoryName)
    && isDatetime(p.extractedAt)
    && p.extractedBy == ExtractedBy
  }

  /** `Product1688Schema.parse(p)`: the record itself, or a schema error. */
  function Parse(p: Product, isUrl: FormatCheck, isDatetime: FormatCheck): (r: Outcome<Product>)
    ensures r.Ok? <==> ValidProduct(p, isUrl, isDatetime)
    ensures r.Ok? ==> r.value == p
    ensures r.Err? ==> r.error == SchemaViolation
  {
    if ValidProduct(p, isUrl, isDatetime) then Ok(p) else Err(SchemaViolation)
  }

  /** A tier whose `minQty` exceeds its `maxQty` is still valid. */
  lemma TierOrderNotEnforced()
    ensures ValidPriceTier(PriceTier(Finite(10.0), Some(Finite(2.0)), Finite(1.5)))
  {
  }

  /** The product id and the title may be any strings, the empty string included. */
  lemma AnyIdAndTitle(p: Product, isUrl: FormatCheck, isDatetime: FormatCheck, id: string, title: string)
    requires ValidProduct(p, isUrl, isDatetime)
    ensures ValidProduct(p.(productId := id, title := title), isUrl, isDatetime)
  {
  }

  /** A valid product has a tier, a main image, and the two fixed literals. */
  lemma ValidProductBasics(p: Product, isUrl: FormatCheck, isDatetime: FormatCheck)
    requires ValidProduct(p, isUrl, isDatetime)
    ensures |p.priceTiers| >= 1 && Positive(p.priceTiers[0].price)
    ensures |p.images.main| >= 1 && isUrl(p.images.main[0])
    ensures p.currency == "CNY" && p.extractedBy == "ecomate-extension"
  {
  }
}
