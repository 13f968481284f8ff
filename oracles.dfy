/**
 * The parts of the runtime the model takes as given: the lazy regular
 * expressions the extractors search scripts with, `JSON.parse`, and the
 * URL and date-time format checks of the output schema.
 */
module Oracles {
  import opened Wrappers
  import opened Js

  /** The regular expressions whose matching is supplied from outside. */
  datatype Pattern =
    // sku-parser.ts, the `skuMap` patterns in order
    | SkuMapQuoted        // "skuMap":\s*(\[[\s\S]*?\])\s*[,}]
    | SkuMapQuotedSpaced  // "skuMap"\s*:\s*(\[[\s\S]*?\])\s*[,}]
    | SkuMapBare          // skuMap\s*:\s*(\[[\s\S]*?\])\s*[,}]
    // sku-parser.ts, the `skuProps` patterns in order
    | SkuPropsQuoted
    | SkuPropsQuotedSpaced
    | SkuPropsBare
    // json-extractor.ts, the inline-script patterns in order
    | VarInitialState     // var\s+__INITIAL_STATE__\s*=\s*({.+?});
    | VarDetailData       // var\s+detailData\s*=\s*({.+?});
    | VarOfferData        // var\s+offerData\s*=\s*({.+?});
    | ConstInitialState   // const\s+__INITIAL_STATE__\s*=\s*({.+?});
    | WindowInitialState  // window\.__INITIAL_STATE__\s*=\s*({.+?});

  const SkuMapPatterns: seq<Pattern> := [SkuMapQuoted, SkuMapQuotedSpaced, SkuMapBare]
  const SkuPropsPatterns: seq<Pattern> := [SkuPropsQuoted, SkuPropsQuotedSpaced, SkuPropsBare]
  const InlinePatterns: seq<Pattern> :=
    [VarInitialState, VarDetailData, VarOfferData, ConstInitialState, WindowInitialState]

  /** `text.match(pattern)`: capture group 1 of the first match, or None. */
  type Matcher = (Pattern, string) -> Option<string>

  /** `JSON.parse(text)`: None when it throws. */
  type Parser = string -> Option<Json>

  /** A format check of the schema (`z.string().url()`, `z.string().datetime()`). */
  type FormatCheck = string -> bool
}
