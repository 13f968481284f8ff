# A verified model of the 1688 product extractor and its admin libraries

This project is a Dafny model of the core of a monorepo that contains two parts:

- a browser extension that reads product data from 1688.com offer pages;
- the admin and UI libraries around it.

The model includes proofs of what the code promises.

The extension side models this pipeline:

- The SKU scan finds the SKU list and the SKU images in the page's scripts. It uses a set of regular expressions and then falls back to a scanner that counts balanced brackets.
- The strategy chain tries six sources in order, and the first that finds product data wins:
  - the `window.__INITIAL_STATE__` global;
  - the `window.detailData` global;
  - the `window.offerData` global;
  - JSON script tags;
  - inline scripts;
  - DOM scraping: title, images, price tiers sorted by quantity, supplier.
- When all six fail, the chain throws a message built from the page's debug counts.
- The normaliser turns the raw record into a `Product1688`: identifier, title, price tiers, SKUs with their attributes and images, and main and detail images. It follows the product schema.

The admin side models:

- the role-based permission matrix and route table, with the permission hook and the `CanPerform` guard;
- the authentication, notification, sidebar and landing-tour stores;
- the classification of API errors into user-facing messages, the Axios error normaliser and the shared error handler;
- the cost calculator's price formula;
- the two formatted number inputs;
- the relative-time and capitalisation formatters.

There is one module per source file:

- SkuParser, Normalizer and ProductSchema;
- DomExtractor, with DomImageUrl, DomPrices, DomPriceRows and DomImages for its parts;
- JsonExtractor;
- AuthStore, Permissions, UsePermission and CanPerform;
- ErrorMessages, Interceptors and ErrorHandling;
- CostCalculation, FormattedNumberInput and CurrencyInput;
- NotificationStore, UiStore, TourStore and Format.

They share six helper modules:

- Wrappers: `Option` and `Result`.
- Text: JavaScript white space, trimming, ASCII case, search, decimal literals and en-US digit grouping.
- Js: a JSON value with JavaScript truthiness, `||`, `String()`, `Number()` and property access that throws on null.
- Seqs: filter and sequence lemmas.
- Oracles: the regular-expression and `JSON.parse` oracles.
- Urls: offer-identifier and URL checks.

Code that loops or mutates is modelled the same way:

- Loops become methods with loop invariants. Each method is proved equal to a declarative specification function, and the properties are proved as lemmas about that function.
- Stores become classes whose methods state their whole new state.

Pure code is modelled as functions and lemmas.

## Model

| member | source | states |
|---|---|---|
| SkuParser.SkipSpaces | apps/extension/src/content/extractors/sku-parser.ts:184-189 | the scan starts at the first non-white-space position at or after the start index, and every position skipped is white space |
| SkuParser.Step | apps/extension/src/content/extractors/sku-parser.ts:206-227 | an escaped character is skipped whole, an unescaped backslash only arms the escape, an unescaped quote only toggles string mode, and the depth moves by one only on the scanned bracket kind outside strings |
| SkuParser.FirstBalanced | apps/extension/src/content/extractors/sku-parser.ts:203-230 | the position found is the first in the window where the depth is back to zero; none is found only when no position in the window balances |
| SkuParser.ExtractBalancedJSON | apps/extension/src/content/extractors/sku-parser.ts:182-235 | the loop over the text returns exactly the declarative balanced-scan result |
| SkuParser.ScanBalanced | apps/extension/src/content/extractors/sku-parser.ts:203-234 | from an opening bracket, the depth-counting scan inside the 50000-character window returns the first position where the depth returns to zero, or nothing |
| SkuParser.DepthPositive | apps/extension/src/content/extractors/sku-parser.ts:203-229 | before the first return to zero the depth stays at least one |
| SkuParser.FirstStepOpens | apps/extension/src/content/extractors/sku-parser.ts:198-222 | the opening bracket itself takes the depth to one |
| SkuParser.FirstBalanceCloses | apps/extension/src/content/extractors/sku-parser.ts:221-229 | the first return to zero happens on the partner of the opening bracket, outside a string literal |
| SkuParser.BalancedJsonShape | apps/extension/src/content/extractors/sku-parser.ts:184-229 | a result is the text from the opening bracket after the white space up to the first balancing position, starts with the opening bracket, ends with its partner and lies within 50 000 characters |
| SkuParser.BalancedJsonFinds | apps/extension/src/content/extractors/sku-parser.ts:203-229 | conversely, a first balancing position inside the window is always found and returned |
| SkuParser.BalancedJsonNone | apps/extension/src/content/extractors/sku-parser.ts:191-234 | null exactly when the text ends after the white space, the character is neither bracket, or no position in the window balances |
| SkuParser.StringLiteralKeepsDepth | apps/extension/src/content/extractors/sku-parser.ts:206-220 | brackets inside a string literal leave the depth unchanged |
| SkuParser.ExtractSKUMap | apps/extension/src/content/extractors/sku-parser.ts:62-105 | the pattern loop returns the first non-empty SKU list a pattern yields, else the balanced-scan candidate, else the empty list |
| SkuParser.AddOptions | apps/extension/src/content/extractors/sku-parser.ts:130-134 | the option loop fills the image map as the declarative fill does |
| SkuParser.AddProps | apps/extension/src/content/extractors/sku-parser.ts:128-136 | the property loop fills the image map as the declarative fill does |
| SkuParser.ExtractSKUImages | apps/extension/src/content/extractors/sku-parser.ts:111-176 | the image map is the declarative result of the three patterns followed by the balanced-scan fallback |
| SkuParser.FillOptionsNoThrow | apps/extension/src/content/extractors/sku-parser.ts:130-134 | reading options throws only on a null option |
| SkuParser.FillOptionsUnnamed | apps/extension/src/content/extractors/sku-parser.ts:131-133 | a key that no contributing option names keeps its previous image |
| SkuParser.FillOptionsLastWins | apps/extension/src/content/extractors/sku-parser.ts:131-133 | the image of a key is that of the last option naming it |
| SkuParser.LastNamingFirst | apps/extension/src/content/extractors/sku-parser.ts:130-133 | when the first option names a key and no later one does, the key ends with that option's image |
| SkuParser.SkuImagesTruthy | apps/extension/src/content/extractors/sku-parser.ts:131-163 | only options whose name and image URL are both truthy enter the image map |
| SkuParser.ExtractSKUDataFromScript | apps/extension/src/content/extractors/sku-parser.ts:32-56 | null exactly when the SKU list is empty; otherwise the SKU list and a map of truthy images |
| SkuParser.NormalizeSKUName | apps/extension/src/content/extractors/sku-parser.ts:240-245 | `normalizeSKUName`: trimmed, single-spaced and lower-case (`NormalizeSKUNameShape`), unchanged on such a name (`NormalizeFixedPoint`), and twice is once (`NormalizeSKUNameIdempotent`) |
| SkuParser.NormalizeSKUNameShape | apps/extension/src/content/extractors/sku-parser.ts:240-245 | a normalised name is trimmed, single-spaced and lower-case |
| SkuParser.NormalizeFixedPoint | apps/extension/src/content/extractors/sku-parser.ts:240-245 | trimmed, single-spaced, lower-case names are left as they are |
| SkuParser.NormalizeSKUNameIdempotent | apps/extension/src/content/extractors/sku-parser.ts:240-245 | normalising twice is normalising once |
| SkuParser.SameNameIndex | apps/extension/src/content/extractors/sku-parser.ts:257-262 | the first entry whose normalised name equals the normalised SKU name, or none |
| SkuParser.OverlapIndex | apps/extension/src/content/extractors/sku-parser.ts:264-270 | the first entry whose normalised name contains or is contained in the normalised SKU name, or none |
| SkuParser.SearchSameName | apps/extension/src/content/extractors/sku-parser.ts:257-262 | the equality loop stops at the first matching entry |
| SkuParser.SameNameIndexUnique | apps/extension/src/content/extractors/sku-parser.ts:258-262 | only the first index whose normalised name is equal, or none when there is none, is the result of the equality search |
| SkuParser.SearchOverlap | apps/extension/src/content/extractors/sku-parser.ts:264-270 | the containment loop stops at the first overlapping entry |
| SkuParser.OverlapIndexUnique | apps/extension/src/content/extractors/sku-parser.ts:264-270 | only the first overlapping index meets the containment tier's contract |
| SkuParser.ImageForSKU | apps/extension/src/content/extractors/sku-parser.ts:250-273 | the three tiers of `findImageForSKU`: the exact key, then the first entry with the same normalised name, then the first overlapping one; the loop method `FindImageForSKU` computes it, and `ImageForSKUNone` says when it is undefined |
| SkuParser.FindImageForSKU | apps/extension/src/content/extractors/sku-parser.ts:250-273 | the tiered search returns the image of the declarative three-tier rule |
| SkuParser.ImageForSKUNone | apps/extension/src/content/extractors/sku-parser.ts:250-273 | undefined exactly when the exact key has no truthy value and no entry overlaps the normalised name |
| SkuParser.EmptyNameTakesFirstEntry | apps/extension/src/content/extractors/sku-parser.ts:264-270 | a name that normalises to "" takes the first entry of a non-empty map at the containment tier |
| ProductSchema.Parse | packages/lib/src/types/product-1688.ts:7-70 | a product parses exactly when it satisfies the schema, and then comes back unchanged; otherwise a schema error |
| ProductSchema.TierOrderNotEnforced | packages/lib/src/types/product-1688.ts:7-11 | a tier with minQty above maxQty is still valid |
| ProductSchema.AnyIdAndTitle | packages/lib/src/types/product-1688.ts:36-39 | any product id and title, the empty strings included, keep a valid product valid |
| ProductSchema.ValidProductBasics | packages/lib/src/types/product-1688.ts:43-69 | a valid product has a positive-priced tier, a main-image URL, currency CNY and extractedBy ecomate-extension |
| Normalizer.FirstTruthy | packages/lib/src/normalizers/normalize-1688.ts:50-75 | the first truthy value among the keys in order, and none exactly when every key is falsy |
| Normalizer.FirstTruthyIsOrChain | packages/lib/src/normalizers/normalize-1688.ts:336-364 | the ordered lookup is the same as the source's `a \|\| b \|\| …` chain |
| Normalizer.OrUndefined | packages/lib/src/normalizers/normalize-1688.ts:336-364 | `x \|\| undefined` is undefined or truthy |
| Normalizer.ProductIdOf | packages/lib/src/normalizers/normalize-1688.ts:48-60 | the id comes from offerId, productId, id, then the digits after `offer/` in the URL; it throws "Could not extract product ID" exactly when all are missing |
| Normalizer.ProductIdFromDetailUrl | packages/lib/src/normalizers/normalize-1688.ts:55-57 | with no id field, a detail-page URL yields its offer digits |
| Normalizer.ProductIdFromField | packages/lib/src/normalizers/normalize-1688.ts:50-52 | a single string id field wins over any URL |
| Normalizer.TitleOf | packages/lib/src/normalizers/normalize-1688.ts:65-69 | the title is trimmed, and it throws "Product title not found" exactly when subject, title, offerTitle and productName are all falsy |
| Normalizer.WeightOrder | packages/lib/src/normalizers/normalize-1688.ts:325-330 | weight, then netWeight, then grossWeight, each as a number; undefined when all are falsy |
| Normalizer.SupplierNameOrder | packages/lib/src/normalizers/normalize-1688.ts:349-351 | sellerName, then supplierName, then companyName |
| Normalizer.PriceTiers | packages/lib/src/normalizers/normalize-1688.ts:83-130 | a successful result has at least one tier |
| Normalizer.CollectRangeTiers | packages/lib/src/normalizers/normalize-1688.ts:88-94 | the priceRange loop pushes one tier per entry, as the declarative walk does |
| Normalizer.CollectSkuPriceTiers | packages/lib/src/normalizers/normalize-1688.ts:99-106 | the skuPrices loop pushes a tier for each entry with a truthy price |
| Normalizer.ExtractPriceTiers | packages/lib/src/normalizers/normalize-1688.ts:83-130 | the strategy sequence returns the declarative price-tier result |
| Normalizer.PriceRangeWins | packages/lib/src/normalizers/normalize-1688.ts:87-98 | a non-empty priceRange yields one tier per entry with minQty from startQuantity or begin, and no later source is read |
| Normalizer.MinQtyDefault | packages/lib/src/normalizers/normalize-1688.ts:90 | with neither startQuantity nor begin, minQty is 1 |
| Normalizer.FallbackTiersStartAtOne | packages/lib/src/normalizers/normalize-1688.ts:98-123 | every tier after the priceRange strategy has minQty 1 and no maxQty |
| Normalizer.PriceWalkErrors | packages/lib/src/normalizers/normalize-1688.ts:88-106 | the tier loops fail only with a TypeError (a null entry) |
| Normalizer.PriceTierErrors | packages/lib/src/normalizers/normalize-1688.ts:83-130 | the only failures are a TypeError and "No price information found" |
| Normalizer.NoPriceInformation | packages/lib/src/normalizers/normalize-1688.ts:125-127 | it throws "No price information found" exactly when every one of the four strategies yields nothing |
| Normalizer.SameNameIndex | packages/lib/src/normalizers/normalize-1688.ts:211-217 | the first entry whose trimmed lower-case name equals the SKU name's |
| Normalizer.PartialIndex | packages/lib/src/normalizers/normalize-1688.ts:219-226 | the first entry whose name overlaps the SKU name |
| Normalizer.SameNameIndexUnique | packages/lib/src/normalizers/normalize-1688.ts:211-217 | only the first matching index meets the case-insensitive tier's contract |
| Normalizer.PartialIndexUnique | packages/lib/src/normalizers/normalize-1688.ts:219-226 | only the first overlapping index meets the partial tier's contract |
| Normalizer.SearchSameName | packages/lib/src/normalizers/normalize-1688.ts:213-217 | the loop returns the first case-insensitive match |
| Normalizer.SearchPartial | packages/lib/src/normalizers/normalize-1688.ts:220-225 | the loop returns the first partial match |
| Normalizer.FindImageForSKUName | packages/lib/src/normalizers/normalize-1688.ts:203-228 | the tiered search returns the declarative result, a TypeError included |
| Normalizer.ImageForSKUNameThrows | packages/lib/src/normalizers/normalize-1688.ts:204-213 | it throws a TypeError exactly when a non-string name reaches the trimming tiers of an object map |
| Normalizer.BlankNameTakesFirstEntry | packages/lib/src/normalizers/normalize-1688.ts:219-226 | a blank name takes the first entry at the partial tier |
| Normalizer.EmptyOverlapsFirst | packages/lib/src/normalizers/normalize-1688.ts:220-223 | an empty normalised name overlaps the first entry, so the partial search stops there |
| Normalizer.PartialMatchTaken | packages/lib/src/normalizers/normalize-1688.ts:207-225 | a name without an exact hit and without an equal normalised name takes the image of the first overlapping entry |
| Normalizer.SkusFromSkuMap | packages/lib/src/normalizers/normalize-1688.ts:141-149 | the _skuMap loop pushes one SKU per entry, as the declarative walk does |
| Normalizer.ExtractSkuAttributes | packages/lib/src/normalizers/normalize-1688.ts:233-249 | the in-place copy of specAttrs then attributes gives the declarative attribute list |
| Normalizer.PutEntries | packages/lib/src/normalizers/normalize-1688.ts:237-239 | one `forEach` over the entries writes `String(value)` under each key, a later key overwriting an earlier one |
| Normalizer.PutAllLookup | packages/lib/src/normalizers/normalize-1688.ts:237-246 | after copying, a key holds the stringified value of its last occurrence, or its earlier value |
| Normalizer.PutAllAppend | packages/lib/src/normalizers/normalize-1688.ts:237-246 | copying two lists one after the other is copying their concatenation |
| Normalizer.PutAllStrings | packages/lib/src/normalizers/normalize-1688.ts:237-245 | every copied value is a string |
| Normalizer.SkuAttributesLastWins | packages/lib/src/normalizers/normalize-1688.ts:233-249 | an attributes entry overwrites a specAttrs entry with the same key; all values are strings |
| Normalizer.SkusFromInfoMap | packages/lib/src/normalizers/normalize-1688.ts:159-167 | the skuInfoMap loop pushes one SKU per entry |
| Normalizer.SkusOfValues | packages/lib/src/normalizers/normalize-1688.ts:174-180 | the value loop pushes one SKU per value |
| Normalizer.SkusFromProps | packages/lib/src/normalizers/normalize-1688.ts:172-182 | the skuProps loop pushes the SKUs of every property with an array value |
| Normalizer.ExtractSKUs | packages/lib/src/normalizers/normalize-1688.ts:135-186 | the strategy sequence returns the declarative SKU result |
| Normalizer.SkuMapWins | packages/lib/src/normalizers/normalize-1688.ts:140-155 | a non-empty _skuMap returns one SKU per entry, each with no attributes or the single 规格 key |
| Normalizer.InfoMapSkus | packages/lib/src/normalizers/normalize-1688.ts:158-171 | skuInfoMap yields one SKU per entry, keyed by the entry's name, and skuProps is not read |
| Normalizer.InfoEntrySkus | packages/lib/src/normalizers/normalize-1688.ts:159-167 | a successful skuInfoMap walk yields exactly one SKU per entry, with the entry's key as id and string-valued attributes |
| Normalizer.WithProtocol | packages/lib/src/normalizers/normalize-1688.ts:308-312 | the protocol step: `//x` gets `https:`, `/x` the CDN origin, other URLs are kept (`WithProtocolShape`, `WithProtocolRules`) |
| Normalizer.WithProtocolShape | packages/lib/src/normalizers/normalize-1688.ts:308-312 | a protocol-relative or root-relative URL becomes absolute; other URLs are unchanged |
| Normalizer.WithProtocolRules | packages/lib/src/normalizers/normalize-1688.ts:308-312 | `//x` becomes `https://x` and `/x` becomes `https://cbu01.alicdn.com/x` |
| Normalizer.NormalizeUrl | packages/lib/src/normalizers/normalize-1688.ts:305-319 | the string part of `normalizeImageUrl`: "" stays "", any other URL comes out absolute with an image extension (`NormalizeUrlShape`), and twice is once (`NormalizeUrlIdempotent`) |
| Normalizer.NormalizeImageUrl | packages/lib/src/normalizers/normalize-1688.ts:304-320 | `normalizeImageUrl(img)` on a string or an object's `url \|\| src \|\| ''`; a TypeError on null or a non-string value (`NormalizeImageUrlOutcome`) |
| Normalizer.NormalizeImageUrlOutcome | packages/lib/src/normalizers/normalize-1688.ts:304-320 | a string is normalised; an object gives its truthy `url` normalised, or "" with neither `url` nor `src`; null or a truthy non-string `url` throws a TypeError; any result is "" or an absolute URL with an image extension |
| Normalizer.NormalizeUrlShape | packages/lib/src/normalizers/normalize-1688.ts:304-320 | "" stays "" and any other URL comes out absolute with an image extension |
| Normalizer.NormalizeUrlKeepsExtension | packages/lib/src/normalizers/normalize-1688.ts:315-317 | a URL with an image extension gets no `.jpg` |
| Normalizer.NormalizeUrlEmpty | packages/lib/src/normalizers/normalize-1688.ts:305-315 | the empty URL stays empty |
| Normalizer.NormalizeUrlIdempotent | packages/lib/src/normalizers/normalize-1688.ts:304-320 | normalising twice is normalising once |
| Normalizer.MapImageUrls | packages/lib/src/normalizers/normalize-1688.ts:259 | the map over an image array normalises each entry |
| Normalizer.PushSource | packages/lib/src/normalizers/normalize-1688.ts:258-275 | one strategy appends its normalised images |
| Normalizer.ExtractMainImageCandidates | packages/lib/src/normalizers/normalize-1688.ts:255-275 | the candidates come from the first non-empty source among image, images, offerImgList, mainImage |
| Normalizer.ExtractMainImages | packages/lib/src/normalizers/normalize-1688.ts:254-282 | the method returns the declarative main-image result |
| Normalizer.ExtractDetailImages | packages/lib/src/normalizers/normalize-1688.ts:287-299 | the method returns the declarative detail-image result |
| Normalizer.ImageRowShape | packages/lib/src/normalizers/normalize-1688.ts:305-319 | each entry yields one normalised or empty URL, or a TypeError |
| Normalizer.AppendSourceShape | packages/lib/src/normalizers/normalize-1688.ts:258-275 | appending keeps every URL normalised or empty |
| Normalizer.CandidatesShape | packages/lib/src/normalizers/normalize-1688.ts:255-275 | every candidate is normalised or empty |
| Normalizer.FilterBlanks | packages/lib/src/normalizers/normalize-1688.ts:281 | after filtering out empty strings every URL is normalised |
| Normalizer.MainImagesShape | packages/lib/src/normalizers/normalize-1688.ts:277-281 | it throws "No product images found" exactly when no candidate exists; the result holds only normalised URLs |
| Normalizer.BlankImageFiltered | packages/lib/src/normalizers/normalize-1688.ts:277-281 | an image list of one empty string passes the check and then filters to nothing |
| Normalizer.DetailImagesShape | packages/lib/src/normalizers/normalize-1688.ts:287-299 | the detail images are normalised, and only a TypeError can fail them |
| Normalizer.DetailImagesOrder | packages/lib/src/normalizers/normalize-1688.ts:290-298 | the detail images are detailImages followed by descImages, blanks removed |
| Normalizer.Normalize1688Product | packages/lib/src/normalizers/normalize-1688.ts:15-43 | the method returns the declarative normalisation, schema check included |
| Normalizer.AssembledFields | packages/lib/src/normalizers/normalize-1688.ts:19-40 | the record carries the given URL and time, and the extracted id, title and main images |
| Normalizer.NormalizedValid | packages/lib/src/normalizers/normalize-1688.ts:15-43 | a result satisfies the schema, carries currency CNY and extractedBy ecomate-extension, a trimmed title and normalised main images |
| Normalizer.SkuErrors | packages/lib/src/normalizers/normalize-1688.ts:135-186 | the SKU extraction fails only with a TypeError |
| Normalizer.MapSkuErrors | packages/lib/src/normalizers/normalize-1688.ts:141-149 | the `_skuMap` walk fails only with a TypeError |
| Normalizer.InfoSkuErrors | packages/lib/src/normalizers/normalize-1688.ts:159-167 | the skuInfoMap walk fails only with a TypeError |
| Normalizer.PropSkuErrors | packages/lib/src/normalizers/normalize-1688.ts:172-182 | the skuProps walk fails only with a TypeError |
| Normalizer.NormalizedErrors | packages/lib/src/normalizers/normalize-1688.ts:15-43 | the only failures are the four messages, a TypeError and a schema violation |
| Normalizer.NormalizedErrorOrder | packages/lib/src/normalizers/normalize-1688.ts:21-24 | the id is checked first, then the title, then the prices |
| Normalizer.BlankImageRejected | packages/lib/src/normalizers/normalize-1688.ts:277-281 | an image list of one empty string is rejected by the schema, not by the image check |
| Urls.DigitRun | apps/extension/src/content/extractors/dom-extractor.ts:92 | the `(\d+)` group: the longest run of digits from the position, ending at the end or at a non-digit |
| Urls.OfferMatchFrom | apps/extension/src/content/extractors/dom-extractor.ts:92 | the leftmost position at or after the start where `offer/` and a digit occur; none only when there is no such position |
| Urls.OfferIdShape | apps/extension/src/content/extractors/json-extractor.ts:232-238 | the offer id is the digit run after the leftmost `offer/`+digit match, non-empty and all digits; there is none exactly when the pattern matches nowhere |
| Urls.OfferIdOfPath | packages/lib/src/normalizers/normalize-1688.ts:53-57 | a URL ending in `offer/<digits>.html`, with no earlier `offer`, yields exactly those digits |
| Urls.DetailPageOfferId | apps/extension/src/content/extractors/dom-extractor.ts:86-98 | the documented detail-page URL form `https://detail.1688.com/offer/<id>.html` yields `<id>` |
| Urls.OfferFromFirst | apps/extension/src/content/extractors/dom-extractor.ts:92 | the search finds a match at `p` whenever no position before `p` matches |
| Urls.ExtensionFound | apps/extension/src/content/extractors/dom-extractor.ts:228 | the unanchored extension test succeeds as soon as one position carries a dot, a listed extension and then the end or `?` |
| Urls.ExtensionWitness | apps/extension/src/content/extractors/dom-extractor.ts:228 | conversely, a successful extension test has a position where it matches |
| Urls.ExtensionAppended | packages/lib/src/normalizers/normalize-1688.ts:315-317 | an URL to which `.ext` of a listed extension was appended passes the extension test |
| Urls.ExtensionPrefixed | apps/extension/src/content/extractors/dom-extractor.ts:221-228 | putting text (such as `https:`) in front of an URL that passes the extension test keeps it passing |
| DomImageUrl.MatchOneOf | apps/extension/src/content/extractors/dom-extractor.ts:218 | an alternation group matched without case: the text matched is a prefix that lower-cases to one of the alternatives; none only when no alternative is a prefix |
| DomImageUrl.ThumbAt | apps/extension/src/content/extractors/dom-extractor.ts:218 | a match of the thumbnail pattern starts with `_` and has positive length within the text |
| DomImageUrl.SizeAt | apps/extension/src/content/extractors/dom-extractor.ts:233 | a match of the size pattern starts with `.`, and its replacement `$1` is a prefix of the match |
| DomImageUrl.ThumbnailStripped | apps/extension/src/content/extractors/dom-extractor.ts:217-218 | `_50x50.jpg`, `_sum.png` and the like at the end of an URL without `_` before become `.jpg`, `.png` |
| DomImageUrl.SizeStripped | apps/extension/src/content/extractors/dom-extractor.ts:232-233 | `.jpg_400x400` and the like at the end of an URL without `.` before become `.jpg` |
| DomImageUrl.JpgKeptAfter | apps/extension/src/content/extractors/dom-extractor.ts:233 | a plain `.jpg` ending is left as it is by the size rewrite |
| DomImageUrl.WithHttpsShape | apps/extension/src/content/extractors/dom-extractor.ts:220-225 | the result starts with `http`; an URL already starting with `http` is kept, any other (protocol-relative `//` included) gets `https:` in front |
| DomImageUrl.WithExtensionShape | apps/extension/src/content/extractors/dom-extractor.ts:227-230 | after the step the URL always passes the image-extension test |
| DomImageUrl.NormalizeImageUrl | apps/extension/src/content/extractors/dom-extractor.ts:214-236 | `normalizeImageUrl` of the DOM strategy: trim, thumbnail strip, protocol, extension, size strip (`Steps`); the result starts with `http` (`NormalizeImageUrlShape`) and is not idempotent (`NotIdempotent`) |
| DomImageUrl.NormalizeImageUrlShape | apps/extension/src/content/extractors/dom-extractor.ts:214-236 | every normalised image URL starts with `http` |
| DomImageUrl.Steps | apps/extension/src/content/extractors/dom-extractor.ts:214-236 | the normalisation is trim, thumbnail strip, protocol, extension, size strip, in that order |
| DomImageUrl.BareNameRewritten | apps/extension/src/content/extractors/dom-extractor.ts:214-236 | a bare name without dot or protocol becomes `https:<name>.jpg` |
| DomImageUrl.SumSuffixDropped | apps/extension/src/content/extractors/dom-extractor.ts:217-218 | `https:<x>_sum.jpg` loses its `_sum` thumbnail marker |
| DomImageUrl.SumNameRewritten | apps/extension/src/content/extractors/dom-extractor.ts:214-236 | a bare name ending in `_sum` becomes `https:<x>_sum.jpg`: the thumbnail rule runs before the extension is added |
| DomImageUrl.NotIdempotent | apps/extension/src/content/extractors/dom-extractor.ts:214-236 | normalising the result of normalising `<x>_sum` changes it again, so the normalisation is not idempotent |
| DomImageUrl.NotIdempotentExample | apps/extension/src/content/extractors/dom-extractor.ts:214-236 | the concrete instance `x_sum` |
| DomPrices.RunEnd | apps/extension/src/content/extractors/dom-extractor.ts:255 | the `\d+` of a numeral: a maximal run of digits, non-empty when it starts on a digit |
| DomPrices.TokenEnd | apps/extension/src/content/extractors/dom-extractor.ts:255 | a `\d+\.?\d*` numeral starting on a digit ends after at least one character and has the digits-dot-digits shape |
| DomPrices.TokenAt | apps/extension/src/content/extractors/dom-extractor.ts:255 | the numeral is a non-empty slice of the text at that position |
| DomPrices.MinPrice | apps/extension/src/content/extractors/dom-extractor.ts:296-298 | `uniquePrices[0]` after the numeric sort: a collected price no greater than any other |
| DomPrices.SkipSpaces | apps/extension/src/content/extractors/dom-extractor.ts:284 | a `\s*` of the row pattern: the first non-white-space position, every position skipped being white space |
| DomPrices.GlueEnd | apps/extension/src/content/extractors/dom-extractor.ts:284 | the optional sign, unit word and yen sign between the two groups, when they lead to a digit |
| DomPrices.RowMatchFrom | apps/extension/src/content/extractors/dom-extractor.ts:284 | the leftmost match of the row pattern gives a non-empty quantity group of digits |
| DomPrices.RowTier | apps/extension/src/content/extractors/dom-extractor.ts:284-291 | a row yields a tier only with a positive quantity and a positive price |
| DomPrices.CandidatesOf | apps/extension/src/content/extractors/dom-extractor.ts:255-263 | the loop over the numerals of one element keeps exactly the plausible ones (above 0.01 and below 1000000), in order |
| DomPrices.CollectPrices | apps/extension/src/content/extractors/dom-extractor.ts:249-265 | the loop over the price elements collects exactly the plausible numerals of all of them, in page order |
| DomPrices.CollectRowTiers | apps/extension/src/content/extractors/dom-extractor.ts:268-294 | the loop over the tier rows collects exactly the tiers the accepted rows give, in page order |
| DomPrices.ExtractPricesFromDom | apps/extension/src/content/extractors/dom-extractor.ts:242-315 | the method computes exactly the declarative price step: an error without prices, otherwise the least price and the tiers (sorted, or the default tier) |
| DomPrices.KeptPricesFrom | apps/extension/src/content/extractors/dom-extractor.ts:255-262 | every collected price is plausible and is a numeral of one of the price texts |
| DomPrices.KeptPricesComplete | apps/extension/src/content/extractors/dom-extractor.ts:255-262 | every plausible numeral of every price text is collected |
| DomPrices.RowTiersPositive | apps/extension/src/content/extractors/dom-extractor.ts:288-289 | every collected tier has a positive quantity and a positive price |
| DomPrices.InsertByQtyPerm | apps/extension/src/content/extractors/dom-extractor.ts:309 | inserting a tier adds exactly that tier |
| DomPrices.InsertByQtySorted | apps/extension/src/content/extractors/dom-extractor.ts:309 | inserting into a list sorted by quantity keeps it sorted |
| DomPrices.SortByQtySorted | apps/extension/src/content/extractors/dom-extractor.ts:309 | the tier sort gives a list sorted by quantity that is a permutation of its input |
| DomPrices.InsertByQtyStable | apps/extension/src/content/extractors/dom-extractor.ts:309 | inserting a tier puts it behind the tiers of the same quantity already there |
| DomPrices.SortByQtyStable | apps/extension/src/content/extractors/dom-extractor.ts:309 | the sort is stable: the tiers of each quantity keep their page order, as `Array.prototype.sort` guarantees |
| DomPrices.PricesFromDomShape | apps/extension/src/content/extractors/dom-extractor.ts:296-310 | the step fails, with the message of the source, exactly when no plausible price was found; otherwise the base price is the least collected price and the tiers are non-empty, sorted, positive, and either the single default tier at quantity 1 or a permutation of the row tiers |
| DomPrices.SortedRowTiers | apps/extension/src/content/extractors/dom-extractor.ts:305-310 | the sorted row tiers are sorted, a permutation of the row tiers, positive, and keep each quantity's page order |
| DomPriceRows.RowMatchAt | apps/extension/src/content/extractors/dom-extractor.ts:284 | a digit run followed by glue that reaches a digit is where the leftmost match begins, with those two groups |
| DomPriceRows.RowMatchSkip | apps/extension/src/content/extractors/dom-extractor.ts:284 | a non-digit cannot start a match |
| DomPriceRows.RowTierOf | apps/extension/src/content/extractors/dom-extractor.ts:284-290 | a match with a positive quantity and a positive price gives the tier `{minQty: parseInt(g1), price: parseFloat(g2)}` |
| DomPriceRows.YenRowTier | apps/extension/src/content/extractors/dom-extractor.ts:283-289 | a threshold row `≥<q> ¥<d>.<f>` gives the tier at quantity `q` and price `<d>.<f>` |
| DomPriceRows.RangeRowReadsUpperBound | apps/extension/src/content/extractors/dom-extractor.ts:283-289 | a range row `<a>-<b>...` gives the tier at quantity `a` and price `b`: the upper bound of the range is read as the price |
| DomPriceRows.RangeRowExample | apps/extension/src/content/extractors/dom-extractor.ts:283-289 | the example row `1-99 件 ¥12.50` named next to the pattern gives quantity 1 and price 99, not 12.50 |
| DomPriceRows.RangeRowTier | apps/extension/src/content/extractors/dom-extractor.ts:283-289 | the corrected row reading, which passes over the upper end `-<digits>` of a range before the glue: a tier it gives has a positive quantity and a positive price (its properties: `RangeTierWithoutDash`, `RangeRowReadsPrice`) |
| DomPriceRows.RangeMatchWithoutDash | apps/extension/src/content/extractors/dom-extractor.ts:284 | on a text without a dash the corrected matcher finds what the pattern finds, from any position |
| DomPriceRows.RangeTierWithoutDash | apps/extension/src/content/extractors/dom-extractor.ts:283-289 | on a row without a dash the corrected reading gives the tier the pattern gives, so threshold and plain rows keep their reading |
| DomPriceRows.RangeRowReadsPrice | apps/extension/src/content/extractors/dom-extractor.ts:283-289 | with the correction, a row `a-b 件 ¥d.f` with `a` and the integer part `d` positive gives quantity `a` and price `d.f`; `1-99 件 ¥12.50` gives 1 and 12.50 |
| DomImages.SrcOfIsOrChain | apps/extension/src/content/extractors/dom-extractor.ts:167 | the source of an element is the `\|\|` chain of `src`, `data-src` and `data-lazy-src`: present exactly when the chain is truthy, and then its string |
| DomImages.CdnPick | apps/extension/src/content/extractors/dom-extractor.ts:166-170 | the CDN pass accepts an element exactly when its source is present and contains `cbu`, and then takes that source |
| DomImages.LazyPick | apps/extension/src/content/extractors/dom-extractor.ts:194-198 | the lazy pass accepts an element exactly when its non-empty `data-src` contains `cbu` or `1688`, and then takes `data-src` |
| DomImages.Accepted | apps/extension/src/content/extractors/dom-extractor.ts:166-198 | every accepted source is what the pass picks from some element |
| DomImages.AddImages | apps/extension/src/content/extractors/dom-extractor.ts:166-171 | the loop over the elements of one pass adds the normalised accepted sources to the set, as the declarative fold does |
| DomImages.AddGallery | apps/extension/src/content/extractors/dom-extractor.ts:182-190 | the loop over the gallery selectors adds the normalised sources of all their elements, selector by selector, as the fold does |
| DomImages.ExtractImagesFromDom | apps/extension/src/content/extractors/dom-extractor.ts:159-209 | the method computes exactly the declarative image step |
| DomImages.AddAllAppend | apps/extension/src/content/extractors/dom-extractor.ts:162-199 | adding two runs of sources to the set is adding the first and then the second |
| DomImages.AddAllDistinct | apps/extension/src/content/extractors/dom-extractor.ts:162 | the `Set` never holds an URL twice |
| DomImages.AddAllPrefix | apps/extension/src/content/extractors/dom-extractor.ts:162 | adding to the `Set` keeps what is there, in its insertion order |
| DomImages.AddAllMembers | apps/extension/src/content/extractors/dom-extractor.ts:162-199 | an URL is in the set exactly when it was there or is the normalisation of an added source |
| DomImages.AddAllHttp | apps/extension/src/content/extractors/dom-extractor.ts:162-199 | when every added URL starts with `http`, every URL of the set does |
| DomImages.FirstSourceFirst | apps/extension/src/content/extractors/dom-extractor.ts:201 | the first image is the normalisation of the first accepted source |
| DomImages.AllHttp | apps/extension/src/content/extractors/dom-extractor.ts:169-197 | every normalised source starts with `http` |
| DomImages.ImagesFromDomShape | apps/extension/src/content/extractors/dom-extractor.ts:159-209 | the step fails, with the message of the source, exactly when no element contributes a source; otherwise the images are distinct, are exactly the normalised sources, all start with `http`, and the first is the normalised first source |
| DomImages.GalleryPrefix | apps/extension/src/content/extractors/dom-extractor.ts:182-190 | the sources of the first `n` gallery selectors come first, in selector order |
| DomImages.GalleryTakesAnySource | apps/extension/src/content/extractors/dom-extractor.ts:184-188 | a gallery element's source is taken whatever host it names |
| DomExtractor.ProductIdFromUrl | apps/extension/src/content/extractors/dom-extractor.ts:86-99 | the product id is found exactly when the offer pattern matches the page URL, and is then its non-empty digit group; otherwise the step throws its message |
| DomExtractor.NonBlank | apps/extension/src/content/extractors/dom-extractor.ts:120-121 | an element's text counts exactly when it is present and not blank once trimmed, and then yields the trimmed text |
| DomExtractor.TitleStem | apps/extension/src/content/extractors/dom-extractor.ts:147 | the stem of the document title holds neither `-` nor `_` and has no white space at either end |
| DomExtractor.FindSelectorText | apps/extension/src/content/extractors/dom-extractor.ts:118-125 | the loop over the selectors with its early return gives the declarative first non-blank selector text |
| DomExtractor.SelectorTextFound | apps/extension/src/content/extractors/dom-extractor.ts:118-125 | the selector loop finds nothing exactly when no selector has non-blank text, and what it finds is trimmed and not empty |
| DomExtractor.SelectorTextFirst | apps/extension/src/content/extractors/dom-extractor.ts:118-125 | the text found is that of the first selector with non-blank text |
| DomExtractor.FindHeadingTitle | apps/extension/src/content/extractors/dom-extractor.ts:128-136 | the loop over the `h1` texts gives the first trimmed text of 11 to 199 characters |
| DomExtractor.ExtractTitleFromDom | apps/extension/src/content/extractors/dom-extractor.ts:105-154 | the method computes exactly the declarative title step |
| DomExtractor.SelectorTextShape | apps/extension/src/content/extractors/dom-extractor.ts:118-125 | no text exactly when every selector's text is blank or absent; otherwise the text of the first selector that has one, non-empty and trimmed |
| DomExtractor.TitleFromDomShape | apps/extension/src/content/extractors/dom-extractor.ts:105-154 | the step throws its message exactly when all four strategies fail; a found title is trimmed, and it is empty only when an `og:title` of white space is the first strategy to apply |
| DomExtractor.DocumentTitleOfSuffixed | apps/extension/src/content/extractors/dom-extractor.ts:146-151 | a page title `<name> - <site>` with a clean name longer than five characters yields that name |
| DomExtractor.KeywordEnd | apps/extension/src/content/extractors/dom-extractor.ts:349 | the `(?:company\|shop\|winport)` group: a keyword occurs at the position exactly when an end is found, and the end is just after it |
| DomExtractor.FirstDigitFrom | apps/extension/src/content/extractors/dom-extractor.ts:349 | the lazy `.*?` stops at the first digit, crossing no line terminator |
| DomExtractor.SellerId | apps/extension/src/content/extractors/dom-extractor.ts:346-355 | a found seller id is a non-empty digit run; none exactly when no link's `href` matches the pattern |
| DomExtractor.FindSellerId | apps/extension/src/content/extractors/dom-extractor.ts:346-355 | the loop over the seller links with its `break` gives the id of the first matching link |
| DomExtractor.ExtractSupplierFromDom | apps/extension/src/content/extractors/dom-extractor.ts:320-358 | the method computes the declarative supplier: the first non-blank supplier selector text and the first seller id |
| DomExtractor.SellerIdAfterKeyword | apps/extension/src/content/extractors/dom-extractor.ts:349 | `<keyword><non-digits><digits>...` yields those digits |
| DomExtractor.ExtractFromDOM | apps/extension/src/content/extractors/dom-extractor.ts:15-81 | the method computes exactly the declarative extraction |
| DomExtractor.ExtractFromDomErrors | apps/extension/src/content/extractors/dom-extractor.ts:15-21 | the extraction fails exactly when the id, title, image or price step throws, with the message of the first step that throws |
| DomExtractor.StepErrors | apps/extension/src/content/extractors/dom-extractor.ts:105-301 | the title, image and price steps each throw only their own message |
| DomExtractor.RawOfferId | apps/extension/src/content/extractors/dom-extractor.ts:43-45 | the raw record holds the product id under `offerId` |
| DomExtractor.RawTitles | apps/extension/src/content/extractors/dom-extractor.ts:49-50 | the raw record holds the title under both `subject` and `title` |
| DomExtractor.RawNoOtherTitles | apps/extension/src/content/extractors/dom-extractor.ts:43-71 | the raw record has neither an `offerTitle` nor a `productName` |
| DomExtractor.ExtractFromDomShape | apps/extension/src/content/extractors/dom-extractor.ts:15-81 | the extraction fails exactly when the id, title, image or price step throws, with the message of the first that does; otherwise it gives the raw record built from the four results, the supplier and the SKU script data, a failed SKU parse being swallowed |
| DomExtractor.RawIdAndTitle | apps/extension/src/content/extractors/dom-extractor.ts:43-71 | the raw record holds the id under `offerId`, the title under `subject` and `title`, and no other title key |
| DomExtractor.RawImage | apps/extension/src/content/extractors/dom-extractor.ts:53-54 | the raw record holds the image list under `image` |
| DomExtractor.RawImages | apps/extension/src/content/extractors/dom-extractor.ts:54 | the raw record holds the same image list under `images` |
| DomExtractor.RawPrice | apps/extension/src/content/extractors/dom-extractor.ts:58 | the raw record holds the base price under `price` |
| DomExtractor.RawMethod | apps/extension/src/content/extractors/dom-extractor.ts:70 | the raw record says it came from `dom-scraping` under `_extractionMethod` |
| DomExtractor.NormalizerKeepsProductId | apps/extension/src/content/extractors/dom-extractor.ts:45-46 | the normaliser reads back the id the DOM step found, whatever the URL |
| DomExtractor.NormalizerTitle | apps/extension/src/content/extractors/dom-extractor.ts:49-50 | the normaliser reads back the DOM title, and rejects it when it is empty |
| DomExtractor.TitleFromSubject | packages/lib/src/normalizers/normalize-1688.ts:65-69 | a raw record whose first title key is `subject` gives that title, an empty one being rejected |
| DomExtractor.TierJsonReads | apps/extension/src/content/extractors/dom-extractor.ts:57 | a DOM tier object carries `minQty` and `price` but none of the quantity keys the normaliser reads |
| DomExtractor.NormalizerReadsDomTierAsQuantityOne | apps/extension/src/content/extractors/dom-extractor.ts:57 | the normaliser reads every DOM tier as starting at quantity 1, whatever its `minQty`, with its price kept |
| DomExtractor.NormalizerReadsCorrectedTier | packages/lib/src/normalizers/normalize-1688.ts:88-93 | a tier written with its quantity under `startQuantity`, the key the normaliser reads, keeps its quantity, with no upper bound and its price |
| JsonExtractor.Props | apps/extension/src/content/extractors/json-extractor.ts:183-208 | the reads `data.<key>` of a list of keys, one per key, in order |
| JsonExtractor.AnyTruthy | apps/extension/src/content/extractors/json-extractor.ts:183-208 | the `!!(a \|\| b \|\| ...)` of the reads is true exactly when one of them is truthy |
| JsonExtractor.HasProductData | apps/extension/src/content/extractors/json-extractor.ts:179-213 | `hasProductData`: an object with a truthy id field and a truthy title, price or image field (`HasProductDataIff`) |
| JsonExtractor.HasProductDataIff | apps/extension/src/content/extractors/json-extractor.ts:179-213 | data passes exactly when it is an object with a truthy id field and a truthy title, price or image field |
| JsonExtractor.RecordWithIdAndImagePasses | apps/extension/src/content/extractors/json-extractor.ts:211-212 | a record with a truthy `offerId` and `image` passes the check |
| JsonExtractor.WindowData | apps/extension/src/content/extractors/json-extractor.ts:102-115 | a window global is taken exactly when reading it does not throw and it is an object that passes the check, and then as it is |
| JsonExtractor.TryExtractFromScriptTags | apps/extension/src/content/extractors/json-extractor.ts:120-136 | the loop over the JSON script tags with its early return gives the declarative first passing parse |
| JsonExtractor.TagDataFirst | apps/extension/src/content/extractors/json-extractor.ts:123-135 | data is found exactly when some tag parses to passing data, and it is the parse of the first such tag; a tag that fails to parse is skipped |
| JsonExtractor.PatternHit | apps/extension/src/content/extractors/json-extractor.ts:157-167 | a pattern contributes exactly when it matches with a non-empty group that parses to passing data, and then that data |
| JsonExtractor.TryPatterns | apps/extension/src/content/extractors/json-extractor.ts:156-169 | the inner loop over the five patterns gives the declarative first hit in one script |
| JsonExtractor.TryExtractFromInlineScripts | apps/extension/src/content/extractors/json-extractor.ts:141-173 | the nested loops over scripts and patterns give the declarative first hit |
| JsonExtractor.ScriptHitFirst | apps/extension/src/content/extractors/json-extractor.ts:156-169 | the hit in a script is that of its first contributing pattern; none when no pattern contributes |
| JsonExtractor.InlineDataFirst | apps/extension/src/content/extractors/json-extractor.ts:153-172 | the data found is the hit of the first script with one, for its first contributing pattern, all earlier scripts having none |
| JsonExtractor.DebugInfoOf | apps/extension/src/content/extractors/json-extractor.ts:87-97 | the count of scripts mentioning `offerId` never exceeds the script count |
| JsonExtractor.ChainOfSix | apps/extension/src/content/extractors/json-extractor.ts:21-64 | the six strategies are tried in order and the first found wins |
| JsonExtractor.ExtractProductData | apps/extension/src/content/extractors/json-extractor.ts:18-82 | the method computes exactly the declarative extraction |
| JsonExtractor.ChainIsFirstFound | apps/extension/src/content/extractors/json-extractor.ts:21-71 | the chain gives the first found result, or the failure when none is found |
| JsonExtractor.ChainAccepted | apps/extension/src/content/extractors/json-extractor.ts:21-71 | a chain of accepted results gives an accepted result, and it fails, with the failure given, exactly when every strategy found nothing |
| JsonExtractor.ProductDataIsFirstFound | apps/extension/src/content/extractors/json-extractor.ts:18-82 | the extraction returns the result of the first strategy that finds data, or throws the debug message |
| JsonExtractor.DomRecordPasses | apps/extension/src/content/extractors/dom-extractor.ts:43-71 | every record of a successful DOM extraction passes the product-data check |
| JsonExtractor.TagDataAccepted | apps/extension/src/content/extractors/json-extractor.ts:126-127 | the data from the script tags passes the check |
| JsonExtractor.InlineDataAccepted | apps/extension/src/content/extractors/json-extractor.ts:161-162 | the data from the inline scripts passes the check |
| JsonExtractor.StrategiesAccepted | apps/extension/src/content/extractors/json-extractor.ts:21-64 | whatever any strategy finds passes the product-data check |
| JsonExtractor.DomDataAccepted | apps/extension/src/content/extractors/json-extractor.ts:58-64 | the DOM fallback yields passing data or nothing, its throw being caught |
| JsonExtractor.ProductDataShape | apps/extension/src/content/extractors/json-extractor.ts:18-82 | the result passes the product-data check; the extraction throws exactly when all six strategies find nothing, and then with the message built from the debug counts |
| JsonExtractor.PageInfoOf | apps/extension/src/content/extractors/json-extractor.ts:218-238 | `getPageInfo()` for a given URL: the detail-page flag and the offer id of `PageInfoShape` |
| JsonExtractor.PageInfoShape | apps/extension/src/content/extractors/json-extractor.ts:218-238 | a page is a detail page exactly when its URL mentions `detail.1688.com` or `offer`; an offer id found in it is a non-empty digit run, and implies a detail page |
| AuthStore.MergeNothing | packages/lib/src/stores/auth.store.ts:70-73 | an update with no fields leaves the user as it was |
| AuthStore.MergeTwice | packages/lib/src/stores/auth.store.ts:70-73 | applying the same update twice is applying it once; a given role replaces the old one, an absent role keeps it |
| AuthStore.AuthState.constructor | packages/lib/src/stores/auth.store.ts:41-45 | the store starts with no user, no tokens, not authenticated and not loading |
| AuthStore.AuthState.SetUser | packages/lib/src/stores/auth.store.ts:47-51 | the user is replaced and the store is authenticated exactly when a user was given; tokens and loading are untouched |
| AuthStore.AuthState.SetTokens | packages/lib/src/stores/auth.store.ts:53-56 | only the tokens change |
| AuthStore.AuthState.SetLoading | packages/lib/src/stores/auth.store.ts:58-61 | only the loading flag changes |
| AuthStore.AuthState.Logout | packages/lib/src/stores/auth.store.ts:63-68 | user and tokens are cleared and the store is no longer authenticated; loading is untouched |
| AuthStore.AuthState.UpdateUser | packages/lib/src/stores/auth.store.ts:70-73 | a present user gets the given fields merged over its own; without a user nothing is created; nothing else changes |
| Permissions.HasPermission | packages/lib/src/constants/permissions.ts:141-150 | `hasPermission`: false without a role, else the role is listed in the matrix cell; its shape is stated by `MatrixOwnerEverywhere`, `OwnerOnlyFeatures`, `MatrixUpwardClosed` and `ViewerOnlyViews` |
| Permissions.MatrixOwnerEverywhere | packages/lib/src/constants/permissions.ts:35-150 | the owner holds every permission any role holds; without a role there is no permission |
| Permissions.OwnerOnlyFeatures | packages/lib/src/constants/permissions.ts:51-73 | only the owner has any permission on users and registration requests |
| Permissions.MatrixUpwardClosed | packages/lib/src/constants/permissions.ts:35-122 | a permission held by a role is held by every role of a higher or equal level |
| Permissions.ViewerOnlyViews | packages/lib/src/constants/permissions.ts:35-122 | a viewer has no permission other than viewing |
| Permissions.EveryKeyListed | packages/lib/src/constants/permissions.ts:9-29 | the feature and action lists hold every feature and every action |
| Permissions.ExactRoute | packages/lib/src/constants/permissions.ts:161-164 | the exact lookup finds the entry whose key is the route, and none when no key equals it |
| Permissions.FirstPrefixRoute | packages/lib/src/constants/permissions.ts:166-170 | `Object.keys(...).find(r => route.startsWith(r))`: the first key in declaration order that prefixes the route |
| Permissions.DashboardFirst | packages/lib/src/constants/permissions.ts:128-167 | every dashboard path is first prefixed by the `/dashboard` key |
| Permissions.CanAccessRoute | packages/lib/src/constants/permissions.ts:155-174 | `canAccessRoute` as written: the exact key, else the first key in declaration order that prefixes the route, else denied; a viewer reaches user pages (`AsWrittenViewerReachesUserPage`, `AsWrittenDashboardPathsOpen`), listed routes follow their lists (`ExactKeyDecides`), and access is upward closed (`RoutesUpwardClosed`) |
| Permissions.CanAccessRouteLongestPrefix | packages/lib/src/constants/permissions.ts:155-174 | the corrected rule, where the longest prefixing key decides: user pages stay owner-only (`UserPagesOwnerOnly`, `ViewerBlockedFromUserPage`), and on listed routes it agrees with the rule as written (`ExactKeyDecides`) |
| Permissions.AsWrittenViewerReachesUserPage | packages/lib/src/constants/permissions.ts:155-174 | as written, a viewer may open `/dashboard/users/123`, an owner-only page |
| Permissions.AsWrittenDashboardPathsOpen | packages/lib/src/constants/permissions.ts:155-174 | as written, every role may open every dashboard path that is not itself a key |
| Permissions.LongestPrefixRoute | packages/lib/src/constants/permissions.ts:166 | the corrected lookup: the longest key that prefixes the route, none when no key does |
| Permissions.UserPagesOwnerOnly | packages/lib/src/constants/permissions.ts:128-170 | with the corrected lookup only the owner may open a `/dashboard/users...` page |
| Permissions.ViewerBlockedFromUserPage | packages/lib/src/constants/permissions.ts:128-170 | with the corrected lookup a viewer may not open `/dashboard/users/123` |
| Permissions.ExactKeyDecides | packages/lib/src/constants/permissions.ts:161-164 | on a listed route both rules agree: access exactly for the roles listed for it |
| Permissions.RoutesUpwardClosed | packages/lib/src/constants/permissions.ts:128-174 | under both rules a route open to a role is open to every higher role, closed without a role, and closed when no key prefixes it |
| Permissions.RolePermissions | packages/lib/src/constants/permissions.ts:179-189 | one entry per feature, in matrix order, each listing the actions the role holds |
| Permissions.RolePermissionsListsGranted | packages/lib/src/constants/permissions.ts:179-189 | an action is listed for a feature exactly when the role has that permission |
| Permissions.RolePermissionsExtremes | packages/lib/src/constants/permissions.ts:179-189 | the owner's list holds every action some role holds; the viewer's lists hold only viewing |
| Permissions.HasRoleLevel | packages/lib/src/constants/permissions.ts:195-208 | `hasRoleLevel`: false without a role, else the role's level reaches the required one; an order on roles (`RoleLevelOrder`) |
| Permissions.RoleLevelOrder | packages/lib/src/constants/permissions.ts:195-208 | the level check is reflexive, transitive, total and antisymmetric on roles, false without a role, and only the owner reaches the owner's level |
| UsePermission.RoleOf | packages/lib/src/hooks/permissions/usePermission.ts:76 | `user?.role \|\| null`: a role exactly when there is a user, and then the user's role |
| UsePermission.HookWith | packages/lib/src/hooks/permissions/usePermission.ts:74-194 | the hook's result built from the user's role, with the route check a parameter; each closure is stated by `RoleFlags`, `RoleChecks`, `Delegation`, `FixedActions` and `QuickChecks` through `Hook` |
| UsePermission.Hook | packages/lib/src/hooks/permissions/usePermission.ts:74-194 | `usePermission()` with `canAccessRoute` as written; its fields are stated by `RoleFlags`, `RoleChecks`, `Delegation`, `FixedActions` and `QuickChecks`, its route check by `HookViewerReachesUserPage` |
| UsePermission.HookCorrected | packages/lib/src/hooks/permissions/usePermission.ts:139-141 | the hook with the longest-prefix route check: it refuses a viewer a user page and otherwise agrees with `Hook` (`HookViewerReachesUserPage`) |
| UsePermission.RoleFlags | packages/lib/src/hooks/permissions/usePermission.ts:74-162 | the hook passes the user and the authentication flag through; without a user no role flag is set, with one exactly one flag is set, the one of the user's role |
| UsePermission.RoleChecks | packages/lib/src/hooks/permissions/usePermission.ts:86-92 | `hasRole` holds exactly for the user's role; `hasAnyRole` exactly when there is a user whose role is listed, so never for an empty list or without a user |
| UsePermission.Delegation | packages/lib/src/hooks/permissions/usePermission.ts:94-141 | the level, permission and route checks are those of the permission module applied to the user's role; the route check is `canAccessRoute` as written, where the first prefixing key decides |
| UsePermission.HookViewerReachesUserPage | packages/lib/src/hooks/permissions/usePermission.ts:139-141 | through the hook a viewer may open `/dashboard/users/123`; the hook with the longest-prefix check refuses it, and differs from the hook in the route check alone |
| UsePermission.FixedActions | packages/lib/src/hooks/permissions/usePermission.ts:103-137 | each per-action check is the permission check for that one action |
| UsePermission.QuickChecks | packages/lib/src/hooks/permissions/usePermission.ts:144-150 | super user is owner; managing users, approving users and managing settings are owner-only; managing products and orders and viewing reports hold for the roles the matrix grants |
| UsePermission.UseHasPermission | packages/lib/src/hooks/permissions/usePermission.ts:204-211 | `useHasPermission`: the hook's `can` for the pair, false without a user (`StandAloneHooksAgree`) |
| UsePermission.UseHasRole | packages/lib/src/hooks/permissions/usePermission.ts:221-224 | `useHasRole`: the hook's `hasRole`, false without a user (`StandAloneHooksAgree`) |
| UsePermission.UseHasAnyRole | packages/lib/src/hooks/permissions/usePermission.ts:234-240 | `useHasAnyRole`: the hook's `hasAnyRole`, false without a user (`StandAloneHooksAgree`) |
| UsePermission.StandAloneHooksAgree | packages/lib/src/hooks/permissions/usePermission.ts:204-240 | the stand-alone hooks give what the main hook gives, and nothing without a user |
| CanPerform.Allowed | packages/lib/src/components/permissions/CanPerform.tsx:66-103 | whether `CanPerform` shows its children: the first applicable criterion decides (`FirstCriterionDecides`, `Deciding`), a lone feature or an empty role list is ignored (`IgnoredCriteria`), and without a user only `when` or no criterion allows (`SignedOutDenied`) |
| CanPerform.Deciding | packages/lib/src/components/permissions/CanPerform.tsx:81-100 | the feature-and-action pair decides exactly when both are given; no criterion applies exactly when neither a pair, a role, a non-empty role list nor `when` is given |
| CanPerform.Render | packages/lib/src/components/permissions/CanPerform.tsx:102 | an allowed check renders the children, a denied one the fallback |
| CanPerform.FirstCriterionDecides | packages/lib/src/components/permissions/CanPerform.tsx:78-100 | the first applicable criterion alone decides: the permission check, the role check, the role-list check, the `when` flag, or allowed when none is given |
| CanPerform.IgnoredCriteria | packages/lib/src/components/permissions/CanPerform.tsx:81-89 | a feature without an action and an empty role list are ignored |
| CanPerform.SignedOutDenied | packages/lib/src/components/permissions/CanPerform.tsx:78-100 | without a user only the `when` flag or the absence of every criterion can allow |
| CanPerform.Shorthands | packages/lib/src/components/permissions/CanPerform.tsx:109-207 | `CanView`, `CanEdit`, `CanDelete` and `CanCreate` check their one action; `IsOwner` checks for the owner role; `IsAdmin` for owner or admin |
| CanPerform.CanView | packages/lib/src/components/permissions/CanPerform.tsx:109-123 | `CanPerform` with the feature and the action `VIEW`: the children exactly when the user holds that permission, else the fallback (`Shorthands`) |
| CanPerform.CanEdit | packages/lib/src/components/permissions/CanPerform.tsx:129-143 | `CanPerform` with the feature and the action `EDIT`: the children exactly when the user holds that permission, else the fallback (`Shorthands`) |
| CanPerform.CanDelete | packages/lib/src/components/permissions/CanPerform.tsx:149-163 | `CanPerform` with the feature and the action `DELETE`: the children exactly when the user holds that permission, else the fallback (`Shorthands`) |
| CanPerform.CanCreate | packages/lib/src/components/permissions/CanPerform.tsx:169-183 | `CanPerform` with the feature and the action `CREATE`: the children exactly when the user holds that permission, else the fallback (`Shorthands`) |
| CanPerform.IsOwner | packages/lib/src/components/permissions/CanPerform.tsx:189-195 | `CanPerform` with the required role `OWNER`: the children exactly for the owner (`Shorthands`) |
| CanPerform.IsAdmin | packages/lib/src/components/permissions/CanPerform.tsx:201-207 | `CanPerform` with the roles owner and admin: the children exactly for those two (`Shorthands`) |
| ErrorMessages.Status | packages/lib/src/utils/error-messages.ts:107 | `error?.response?.status \|\| error?.statusCode`: the response status when present and non-zero, else the error's own status code |
| ErrorMessages.ApiMessage | packages/lib/src/utils/error-messages.ts:110 | the response's message when truthy, else the error's message when truthy, else empty, and empty exactly when neither is truthy |
| ErrorMessages.Classify | packages/lib/src/utils/error-messages.ts:105-212 | the kind of an error: by status first (`Unauthorized`, `Forbidden`, `NotFoundAndConflict`, `ValidationAndServer`), then by code and keyword (`CodesAfterStatus`), unknown exactly when no rule applies (`UnknownOnlyWhenNothingMatches`) |
| ErrorMessages.GetFriendlyError | packages/lib/src/utils/error-messages.ts:105-212 | the entry of the classified kind; for an unknown error the unknown entry with the API message in place of its message when there is one; a suggestion always present |
| ErrorMessages.Unauthorized | packages/lib/src/utils/error-messages.ts:114-123 | a 401 is invalid credentials when the message mentions `invalid`, `wrong` or `incorrect` in any case, else unauthorised |
| ErrorMessages.Forbidden | packages/lib/src/utils/error-messages.ts:125-136 | a 403 is suspended, locked or pending by the first keyword the message holds, else forbidden |
| ErrorMessages.NotFoundAndConflict | packages/lib/src/utils/error-messages.ts:138-204 | a 404 is always account-not-found; a 409 mentioning `email` is email-already-exists, any other 409 falls through to the code and keyword rules |
| ErrorMessages.ValidationAndServer | packages/lib/src/utils/error-messages.ts:148-160 | a 400 or 422 is invalid email, weak password or required field by the first keyword; a 500, 502 or 503 is a server error |
| ErrorMessages.CodesAfterStatus | packages/lib/src/utils/error-messages.ts:162-169 | after the status rules, `ECONNABORTED` or a `TIMEOUT` error is a timeout, then `ERR_NETWORK`, a `NETWORK_ERROR` error or status 0 is a network error |
| ErrorMessages.UnknownOnlyWhenNothingMatches | packages/lib/src/utils/error-messages.ts:105-212 | the unknown entry comes exactly when no status, code or keyword rule applies, and so never for a handled status or status 0 |
| ErrorMessages.FormatErrorForToast | packages/lib/src/utils/error-messages.ts:217-228 | `formatErrorForToast`: the friendly error's title, and its message followed by `. ` and the suggestion (`FormatsWithSuggestion`, `FormatsAppendSuggestion`) |
| ErrorMessages.FormatErrorForInline | packages/lib/src/utils/error-messages.ts:231-240 | `formatErrorForInline`: the friendly error's message, then a new line, the bulb and the suggestion (`FormatsWithSuggestion`, `FormatsAppendSuggestion`) |
| ErrorMessages.FormatsWithSuggestion | packages/lib/src/utils/error-messages.ts:217-240 | with a suggestion, the toast reads `<message>. <suggestion>` under the title, and the inline text `<message>` then a new line, the bulb and the suggestion |
| ErrorMessages.FormatsAppendSuggestion | packages/lib/src/utils/error-messages.ts:217-240 | every friendly error has a suggestion, so both formats always carry it after the message |
| ErrorMessages.EntrySuggestions | packages/lib/src/utils/error-messages.ts:15-100 | every entry of the table has a non-empty suggestion |
| Interceptors.ResponseMessage | packages/lib/src/api/interceptors.ts:20 | the response's message when truthy, else its error when truthy, else the error's own message |
| Interceptors.HandleApiError | packages/lib/src/api/interceptors.ts:13-41 | `handleApiError`: its three cases, response, request without response and anything else, are stated by `HandleApiErrorCases` |
| Interceptors.HandleApiErrorCases | packages/lib/src/api/interceptors.ts:13-41 | an Axios error with a response keeps its status and takes the response message; one with a request and no response becomes the network error with status 0; anything else becomes status 500 `UNKNOWN_ERROR`, with the error's message or the generic one for a non-error |
| Interceptors.IsErrorStatus | packages/lib/src/api/interceptors.ts:46-51 | `isErrorStatus`: it holds exactly for an Axios error with a response whose normalised status is the one asked for (`IsErrorStatusAgrees`) |
| Interceptors.IsErrorStatusAgrees | packages/lib/src/api/interceptors.ts:46-51 | the status check holds exactly for an Axios error with a response whose normalised status is the one asked for; never for anything else |
| Interceptors.NamedChecksExclusive | packages/lib/src/api/interceptors.ts:56-72 | at most one of the 401, 403 and 404 checks holds, and any of them needs an Axios error with a response |
| ErrorHandling.QueriesOnThrown | packages/shared/src/utils/error-handler.ts:21-55 | the message is the normalised message; a network error is an Axios error with status 0 or a `NETWORK_ERROR` body, or a request without response; an auth error is a 401 or 403 response and a validation error a 400 or 422 response |
| ErrorHandling.NonAxiosIsNoneOfThem | packages/shared/src/utils/error-handler.ts:28-55 | a value that is not an Axios error is neither a network, an auth nor a validation error, and its message is its own or the generic one |
| ErrorHandling.Registry.constructor | packages/shared/src/utils/error-handler.ts:7 | no instance exists before the first request |
| ErrorHandling.Registry.GetInstance | packages/shared/src/utils/error-handler.ts:11-16 | the first call creates and keeps a new handler; every later call returns the kept one |
| ErrorHandling.SameInstance | packages/shared/src/utils/error-handler.ts:11-16 | two requests give the same handler, the one kept |
| CostCalculation.CalculatePrice | apps/admin/src/components/cost/CostCalculationForm.tsx:47-131 | the calculation of the form: no result on a missing or non-positive input and on rates that leave nothing to divide by (`NullCases`), otherwise the formulas of `Formulas`, whose prices keep the margin (`NetProfitIsMargin`), order (`BreakEvenBelowSuggested`) and sign (`PositiveWhenCostsNonNegative`) |
| CostCalculation.NullCases | apps/admin/src/components/cost/CostCalculationForm.tsx:47-89 | no result exactly when the import price, exchange rate or quantity is missing or not positive, or the return or platform-fee rate reaches 1 |
| CostCalculation.Formulas | apps/admin/src/components/cost/CostCalculationForm.tsx:54-96 | base cost `((import + domestic) * rate + international + handling) / quantity`, effective cost base over `1 - returns`, suggested price effective cost times `1 + margin` over `1 - fee`, break-even effective cost over `1 - fee` |
| CostCalculation.NetProfitIsMargin | apps/admin/src/components/cost/CostCalculationForm.tsx:90-122 | the net profit per unit is the effective cost times the margin rate, and the price before the platform fee is the effective cost times `1 + margin` |
| CostCalculation.BreakEvenBelowSuggested | apps/admin/src/components/cost/CostCalculationForm.tsx:90-96 | with a non-negative cost and margin the break-even price does not exceed the suggested price |
| CostCalculation.PercentagesShown | apps/admin/src/components/cost/CostCalculationForm.tsx:127-131 | the fee and return rates in percent; the margin percentage is the margin rate in percent, and not a number exactly when the effective cost is zero |
| CostCalculation.PositiveWhenCostsNonNegative | apps/admin/src/components/cost/CostCalculationForm.tsx:50-96 | with non-negative extra costs and margin every price is positive and the net profit is not negative |
| FormattedNumberInput.NumberInput.constructor | apps/admin/src/components/cost/FormattedNumberInput.tsx:13 | the field starts empty, with no callbacks made |
| FormattedNumberInput.NumberInput.HandleChange | apps/admin/src/components/cost/FormattedNumberInput.tsx:44-73 | an accepted text sets the display, reports the comma-free text and, when it is a number, its value; a rejected text changes and reports nothing |
| FormattedNumberInput.NumberInput.ValuePropChanged | apps/admin/src/components/cost/FormattedNumberInput.tsx:36-42 | a new value is formatted into the display, an empty one clears it, an absent one leaves it; no callback is made |
| FormattedNumberInput.FormatNumberPassThrough | apps/admin/src/components/cost/FormattedNumberInput.tsx:16-19 | empty text formats to empty text, and text that is not a number once the commas are gone is returned without its commas |
| FormattedNumberInput.AcceptedValue | apps/admin/src/components/cost/FormattedNumberInput.tsx:49-70 | among accepted texts only a lone `.` reports no number; every other one reports its exact decimal value, empty text reporting 0 |
| FormattedNumberInput.ReportedText | apps/admin/src/components/cost/FormattedNumberInput.tsx:31-63 | the reported text has no commas and keeps every other character typed; text without commas is reported as typed |
| FormattedNumberInput.TrailingDotKept | apps/admin/src/components/cost/FormattedNumberInput.tsx:51-53 | a trailing `.` typed stays at the end of the display |
| FormattedNumberInput.DecimalsKept | apps/admin/src/components/cost/FormattedNumberInput.tsx:54-57 | the digits typed after the decimal point are shown as typed |
| FormattedNumberInput.DecimalBranch | apps/admin/src/components/cost/FormattedNumberInput.tsx:54-57 | text with a decimal point that is not its last character is shown as the grouped integer part, a point and the decimal part |
| FormattedNumberInput.WholeNumberDisplay | apps/admin/src/components/cost/FormattedNumberInput.tsx:16-60 | a whole number is shown grouped in threes, and the display read back without commas is the same number |
| CurrencyInput.ConfigsDistinct | packages/ui/src/components/CurrencyInput.tsx:11-36 | each currency has a one-character symbol, and different currencies have different symbols and locales |
| CurrencyInput.CurrencyField.constructor | packages/ui/src/components/CurrencyInput.tsx:41 | the field starts empty with no events passed on |
| CurrencyInput.CurrencyField.HandleChange | packages/ui/src/components/CurrencyInput.tsx:63-82 | an accepted text sets the display (as typed with a decimal point, formatted otherwise) and passes on the comma-free text; a rejected text changes and passes on nothing |
| CurrencyInput.CurrencyField.ValuePropChanged | packages/ui/src/components/CurrencyInput.tsx:56-61 | a present value is formatted into the display, an absent one leaves it; no event is passed on |
| CurrencyInput.FormatIgnoresCommas | packages/ui/src/components/CurrencyInput.tsx:44-54 | commas in the text do not change its formatting |
| CurrencyInput.DecimalTextKept | packages/ui/src/components/CurrencyInput.tsx:69 | accepted text holding a decimal point is shown exactly as typed |
| CurrencyInput.WholeNumberGrouped | packages/ui/src/components/CurrencyInput.tsx:44-69 | an accepted whole number is shown grouped in threes, and reads back without commas as the number typed |
| CurrencyInput.ReformatStable | packages/ui/src/components/CurrencyInput.tsx:44-49 | formatting a whole number a second time changes nothing |
| NotificationStore.Store.constructor | packages/lib/src/stores/notification.store.ts:31 | the store starts with no notification and no pending timer |
| NotificationStore.Store.Add | packages/lib/src/stores/notification.store.ts:33-50 | the notification with its id is appended, and a timer for that id is started exactly when the delay (default 5000 ms) is positive |
| NotificationStore.Store.Expire | packages/lib/src/stores/notification.store.ts:44-48 | a pending timer fires: the notifications of its id go, the others stay in order, and that timer is no longer pending |
| NotificationStore.Store.Remove | packages/lib/src/stores/notification.store.ts:52-55 | the notifications of the id go, the others stay in order; pending timers are untouched |
| NotificationStore.Store.Clear | packages/lib/src/stores/notification.store.ts:57-60 | no notification is left; pending timers are untouched |
| NotificationStore.Store.NotifySuccess | packages/lib/src/stores/notification.store.ts:62-65 | a success notification is appended with the default delay |
| NotificationStore.Store.NotifyError | packages/lib/src/stores/notification.store.ts:67-70 | an error notification is appended with a 7000 ms delay |
| NotificationStore.Store.NotifyWarning | packages/lib/src/stores/notification.store.ts:72-75 | a warning notification is appended with the default delay |
| NotificationStore.Store.NotifyInfo | packages/lib/src/stores/notification.store.ts:77-80 | an info notification is appended with the default delay |
| NotificationStore.WithoutDropsExactlyThatId | packages/lib/src/stores/notification.store.ts:46-54 | removal by id keeps exactly the notifications of other ids, and nothing new |
| NotificationStore.WithoutKeepsOrder | packages/lib/src/stores/notification.store.ts:46-54 | removal from a concatenation is removal from each part, so the order is kept |
| NotificationStore.WithoutAbsent | packages/lib/src/stores/notification.store.ts:46-54 | removing an id no notification has changes nothing, so removing twice is removing once |
| NotificationStore.WithoutOtherId | packages/lib/src/stores/notification.store.ts:38-54 | removing one id keeps a newly added notification of another id at the end |
| NotificationStore.AddThenExpire | packages/lib/src/stores/notification.store.ts:33-49 | when the new id was not in use, the timer of an added notification gives back the list as it was |
| NotificationStore.TimerRule | packages/lib/src/stores/notification.store.ts:42-43 | at most one timer per addition, one exactly when the duration is absent or positive, and an absent duration means the 5000 ms default |
| UiStore.UIState.constructor | packages/lib/src/stores/ui.store.ts:18-19 | the sidebar starts open and not collapsed |
| UiStore.UIState.SetSidebarOpen | packages/lib/src/stores/ui.store.ts:21-24 | only the open flag changes, to the value given |
| UiStore.UIState.ToggleSidebar | packages/lib/src/stores/ui.store.ts:26-29 | only the open flag changes, to its negation |
| UiStore.UIState.SetSidebarCollapsed | packages/lib/src/stores/ui.store.ts:31-34 | only the collapsed flag changes, to the value given |
| UiStore.UIState.ToggleSidebarCollapsed | packages/lib/src/stores/ui.store.ts:36-39 | only the collapsed flag changes, to its negation |
| TourStore.TourState.constructor | apps/landing/src/stores/tour-store.ts:30-36 | the tour starts inactive, at no section, not transitioning, with no circle animation and no canvas |
| TourStore.TourState.Activate | apps/landing/src/stores/tour-store.ts:39 | the tour becomes active and shows the canvas; nothing else changes |
| TourStore.TourState.Deactivate | apps/landing/src/stores/tour-store.ts:41-46 | the tour becomes inactive, hides the canvas, and goes back to no section and no animation; the transition flag is kept |
| TourStore.TourState.SetCurrentSection | apps/landing/src/stores/tour-store.ts:48 | only the section changes |
| TourStore.TourState.SetCircleAnimation | apps/landing/src/stores/tour-store.ts:50 | only the circle animation changes |
| TourStore.TourState.SetShowCanvas | apps/landing/src/stores/tour-store.ts:52 | only the canvas flag changes |
| TourStore.TourState.SetIsTransitioning | apps/landing/src/stores/tour-store.ts:54 | only the transition flag changes |
| TourStore.TourState.Reset | apps/landing/src/stores/tour-store.ts:56-62 | every field goes back to its initial value |
| TourStore.DeactivateSettled | apps/landing/src/stores/tour-store.ts:41-46 | deactivating a tour that is not transitioning puts it back in the initial state |
| Format.FormatRelativeTime | packages/shared/src/utils/format.ts:38-58 | `formatRelativeTime`: "Just now" exactly for an invalid date or under a minute (`JustNowIff`), else the count of the largest unit reached with a plural `s` above one (`RelativeTimeUnits`, `PhrasePlural`) |
| Format.Counts | packages/shared/src/utils/format.ts:43-49 | the chained floors count whole minutes, hours, days, weeks, 30-day months and 365-day years of the elapsed milliseconds |
| Format.RelativeTimeUnits | packages/shared/src/utils/format.ts:38-58 | the phrase uses the largest unit the elapsed time reaches, counted in whole units, and below a minute reads "Just now" |
| Format.JustNowIff | packages/shared/src/utils/format.ts:38-58 | "Just now" exactly for an invalid date or less than a minute elapsed, a date in the future included |
| Format.PhrasePlural | packages/shared/src/utils/format.ts:51-56 | the unit takes a plural `s` exactly when the count is above one |
| Format.PhraseIsNotJustNow | packages/shared/src/utils/format.ts:51-56 | a counted phrase never reads "Just now" |
| Format.Capitalize | packages/shared/src/utils/format.ts:63-65 | `capitalize`: first character upper-cased, the rest lower-cased, length kept (`CapitalizeChars`), idempotent and blind to the input's case (`CapitalizeIdempotent`, `CapitalizeIgnoresCase`) |
| Format.CapitalizeChars | packages/shared/src/utils/format.ts:63-65 | the first character is upper-cased, every other one lower-cased, and the length is kept |
| Format.CapitalizeIdempotent | packages/shared/src/utils/format.ts:63-65 | capitalising twice is capitalising once |
| Format.CapitalizeIgnoresCase | packages/shared/src/utils/format.ts:63-65 | the case of the input does not change the result |
| Format.FormatRole | packages/shared/src/utils/format.ts:70-72 | `formatRole`: the capitalised role, so `OWNER` reads "Owner" and the other roles likewise (`RoleBadges`) |
| Format.FormatStatus | packages/shared/src/utils/format.ts:77-79 | `formatStatus`: the capitalised status, so `ACTIVE` reads "Active" and the other statuses likewise (`StatusBadges`) |
| Format.RoleBadges | packages/shared/src/utils/format.ts:70-72 | the four roles read "Owner", "Admin", "Staff" and "Viewer" |
| Format.StatusBadges | packages/shared/src/utils/format.ts:77-79 | the three statuses read "Active", "Inactive" and "Suspended" |

Notes on behaviour that the model keeps as written:

- **The DOM image-URL rewrite is not idempotent.** Rewriting a thumbnail URL twice can differ from rewriting it once (`DomImageUrl.NotIdempotent`, `DomImageUrl.NotIdempotentExample`).

## Left out

**Page, browser and parsing**

- The browser DOM and `window` globals are not modelled as such. `querySelector*`, attribute reads, `textContent` and `window[key]` are abstract inputs: an abstract page record holding lists of texts, attributes and candidate values.
- The DOM SKU-script search reduces to the list of script texts it inspects. The selector engine that produces that list is not modelled.
- The regular-expression engine is not modelled for the lazy patterns: the `(\[[\s\S]*?\])\s*[,}]` patterns in sku-parser.ts, and the `({.+?});` patterns with the `s` flag in json-extractor.ts. Their matches are an uninterpreted matcher oracle. The anchored and simple patterns are written out exactly.
- `JSON.parse` is an uninterpreted parser oracle. Only its success or failure and its result value are used.
- The URL and datetime checks of the Zod schema are abstract predicates. The rest of `Product1688Schema` is written out as a predicate.

**Numbers, strings and objects**

- A JSON number is kept as a numeral: a parsed number as its JavaScript rendering `String(n)`, a number the DOM scan read as the text it matched. `Number()` reads either back as an exact decimal real or `NaN`.
- DomExtractor.RawOf keeps DOM prices (`price` and each tier's `price`) as the matched numeral text, such as `12.50`, not `String(parseFloat(...))`, which would be `12.5`. Only `Number()` reads them, and it gives the same value (`DomExtractor.PositiveDecimalNumber`). `String()` of such a value (`Js.ToStr`) would give the matched text. No part of the model applies it to them.
- `Number()` does not model exponents, hexadecimal literals or `Infinity`.
- String lengths count characters, not UTF-16 code units.
- Object key order is insertion order. The integer-like-key ordering of JavaScript objects is not modelled, nor are prototype keys.
- Case conversion (`toUpperCase`, `toLowerCase`, `capitalize`) is ASCII-only.
- Floating point is modelled as exact real arithmetic, including in the cost formula. Binary floating-point rounding is not modelled.
- `toFixed`, `Intl.NumberFormat`, `formatDate` and `formatDateTime` are not modelled.
- `toLocaleString('en-US')` is modelled as en-US thousands grouping of the integer part, with at most three fraction digits rounded half away from zero (`Text.LocaleString`). Its other options and other locales are left out.

**Time, randomness and asynchrony**

- The clock is the `now` parameter of the relative-time formatter. An invalid date is `None`.
- The notification `Math.random` id is a parameter of `Add`.
- The notification `setTimeout` is modelled as a pending timer and an explicit `Expire` step. Real time, the order in which timers fire, and `NaN` durations are not modelled.
- The token-refresh queue, the debounce hook, `useMemo`/`useEffect` wiring, react-query hooks and the store persistence middleware are asynchronous or framework plumbing, and are not modelled.

**Props and stores**

- `AuthStore.AuthState.UpdateUser` merges present fields. A field explicitly passed as `undefined`, which the spread would copy, is not modelled.
- CurrencyInput's `value` prop is taken as a string. Its numeric form, and the object form the field ignores, are left out.
- FormattedNumberInput's `value` prop is taken as a string. The numeric form of the prop is left out.

**Routes and error messages**

- ErrorMessages: the titles and messages of the message table are not stated one by one. The model proves that each entry holds a non-empty suggestion, and which entry each error selects.

**Presentation and tooling**

- Colours, class names, icons, React rendering, animation (GSAP, three.js) and console logging are presentation or diagnostics.
- Chrome messaging, storage and downloads, the Axios SDK wrappers and packaging scripts are extension and network plumbing.

## Findings

| source | as written | input that shows it | evidently intended | confidence | as-written member | corrected member |
|---|---|---|---|---|---|---|
| packages/lib/src/constants/permissions.ts:128-136 | when no key equals the route exactly, the first key in declaration order that prefixes it decides. `/dashboard` is declared first, so it decides for every dashboard sub-path and grants it to all four roles | role VIEWER, route `/dashboard/users/123` | the most specific key, the longest prefix, decides, so `/dashboard/users...` stays owner-only | high; not executed | Permissions.AsWrittenViewerReachesUserPage | Permissions.UserPagesOwnerOnly |
| apps/extension/src/content/extractors/dom-extractor.ts:283-289 | the row pattern lets the dash of a range end the first number and then reads the upper end of the range as the price | the row `1-99 件 ¥12.50`, the example named next to the pattern: quantity 1, price 99 | a range row gives its lower end as the quantity and the yuan amount as the price: quantity 1, price 12.50 | medium; not executed | DomPriceRows.RangeRowReadsUpperBound | DomPriceRows.RangeRowReadsPrice |
| packages/lib/src/normalizers/normalize-1688.ts:90 | the DOM strategy writes each tier's quantity under `minQty`, and the normaliser reads a tier's quantity from `startQuantity` or `begin`, else 1 | any DOM tier with `minQty` 100: it reaches the product with minimum quantity 1 | each DOM tier keeps its minimum quantity | medium; not executed | DomExtractor.NormalizerReadsDomTierAsQuantityOne | DomExtractor.NormalizerReadsCorrectedTier |

The rest of the model follows the code as written in all three cases: the permission hook uses the first-prefix route check, the DOM price step uses the row pattern as written, and the DOM record writes `minQty`. The corrected definitions sit beside them: `Permissions.CanAccessRouteLongestPrefix` with `UsePermission.HookCorrected`, `DomPriceRows.RangeRowTier` (with `DomPriceRows.RangeTierWithoutDash`: it agrees with the pattern on every row without a dash), and `DomExtractor.TierJsonForNormalizer`.
