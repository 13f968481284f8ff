/**
 * The SKU parser of the 1688 extension: it finds the `skuMap` list and the
 * `skuProps` option images in a page script, either through the regular
 * expressions (supplied as an oracle) or through a hand-written balanced
 * bracket scanner, and it matches SKU names against the image map.
 */
module SkuParser {
  import opened Wrappers
  import opened Text
  import opened Js
  import opened Oracles
  import opened Seqs

  // =====================================================================
  // The balanced-bracket scanner

  /** The scanner never looks further than this many characters. */
  const ScanLimit: nat := 50000

  /** The loop variables of the scanner: bracket depth and the two flags. */
  datatype ScanState = ScanState(depth: int, inString: bool, escapeNext: bool)

  const Initial := ScanState(0, false, false)

  predicate IsOpen(c: char) {
    c == '[' || c == '{'
  }

  function Partner(c: char): char {
    if c == '[' then ']' else '}'
  }

  /** One character of the scanning loop, leaving out its early return. */
  function Step(st: ScanState, c: char, open: char, close: char): (r: ScanState)
    requires open != close
    // an escaped character is skipped entirely, so an escaped quote never toggles
    ensures st.escapeNext ==> r == st.(escapeNext := false)
    // an unescaped backslash only arms the escape
    ensures !st.escapeNext && c == '\\' ==> r == st.(escapeNext := true)
    // an unescaped quote toggles string mode and nothing else
    ensures !st.escapeNext && c == '"' ==> r == st.(inString := !st.inString)
    // the depth moves by at most one, and only on the scanned bracket kind outside strings
    ensures st.depth - 1 <= r.depth <= st.depth + 1
    ensures r.depth != st.depth ==> !st.escapeNext && !st.inString && c != '\\' && c != '"'
    ensures r.depth == st.depth + 1 <==> (!st.escapeNext && !st.inString && c == open && c != '\\' && c != '"')
    ensures r.depth == st.depth - 1 <==> (!st.escapeNext && !st.inString && c == close && c != open && c != '\\' && c != '"')
  {
    if st.escapeNext then st.(escapeNext := false)
    else if c == '\\' then st.(escapeNext := true)
    else if c == '"' then st.(inString := !st.inString)
    else if st.inString then st
    else if c == open then st.(depth := st.depth + 1)
    else if c == close then st.(depth := st.depth - 1)
    else st
  }

  /** The state after the loop has consumed `text[i..j]`. */
  function Run(text: string, i: nat, j: nat, open: char, close: char): ScanState
    requires i <= j <= |text| && open != close
    decreases j
  {
    if j == i then Initial else Step(Run(text, i, j - 1, open, close), text[j - 1], open, close)
  }

  /** The depth is back to zero right after position `k`. */
  predicate BalancedAt(text: string, i: nat, k: nat, open: char, close: char)
    requires i <= k < |text| && open != close
  {
    Run(text, i, k + 1, open, close).depth == 0
  }

  /** The first position in `[j, end)` where the depth returns to zero. */
  function FirstBalanced(text: string, i: nat, j: nat, end: nat, open: char, close: char): (r: Option<nat>)
    requires i <= j <= end <= |text| && open != close
    ensures r.Some? ==> j <= r.value < end && BalancedAt(text, i, r.value, open, close)
    ensures r.Some? ==> forall m :: j <= m < r.value ==> !BalancedAt(text, i, m, open, close)
    ensures r.None? ==> forall m :: j <= m < end ==> !BalancedAt(text, i, m, open, close)
    decreases end - j
  {
    if j == end then None
    else if BalancedAt(text, i, j, open, close) then Some(j)
    else FirstBalanced(text, i, j + 1, end, open, close)
  }

  /** The first position at or after `i` that is not white space. */
  function SkipSpaces(text: string, i: nat): (k: nat)
    ensures i <= k && (i <= |text| ==> k <= |text|)
    ensures forall m :: i <= m < k ==> m < |text| && IsSpace(text[m])
    ensures k < |text| ==> !IsSpace(text[k])
    decreases |text| - i
  {
    if i < |text| && IsSpace(text[i]) then SkipSpaces(text, i + 1) else i
  }

  /** `Math.min(i + 50000, text.length)`. */
  function Window(text: string, i: nat): nat {
    if i + ScanLimit < |text| then i + ScanLimit else |text|
  }

  /**
   * What the scanner computes: after the white space, an opening bracket and
   * everything up to the first position inside the window where the depth of
   * that bracket kind returns to zero.
   */
  function BalancedJson(text: string, start: nat): Option<string> {
    var i := SkipSpaces(text, start);
    if i >= |text| || !IsOpen(text[i]) then None
    else
      match FirstBalanced(text, i, i, Window(text, i), text[i], Partner(text[i]))
      case None => None
      case Some(k) => Some(text[i..k + 1])
  }

  /** `extractBalancedJSON(text, startIndex)`. */
  method ExtractBalancedJSON(text: string, startIndex: nat) returns (r: Option<string>)
    ensures r == BalancedJson(text, startIndex)
  {
    var i := startIndex;
    while i < |text|
      invariant startIndex <= i
      invariant SkipSpaces(text, startIndex) == SkipSpaces(text, i)
      decreases |text| - i
    {
      if !IsSpace(text[i]) {
        break;
      }
      i := i + 1;
    }
    if i >= |text| {
      return None;
    }
    var startChar := text[i];
    if startChar != '[' && startChar != '{' {
      return None;
    }
    var closingChar := if startChar == '[' then ']' else '}';
    var k := ScanBalanced(text, i, startChar, closingChar);
    if k.Some? {
      return Some(text[i..k.value + 1]);
    }
    return None;
  }

  /** The bracket-counting loop of `extractBalancedJSON`, from the opening bracket at `i`: the position where the depth returns to zero. */
  method ScanBalanced(text: string, i: nat, startChar: char, closingChar: char) returns (r: Option<nat>)
    requires i < |text| && IsOpen(startChar) && text[i] == startChar && closingChar == Partner(startChar)
    ensures r == FirstBalanced(text, i, i, Window(text, i), startChar, closingChar)
  {
    var depth, inString, escapeNext := 0, false, false;
    var end := if i + 50000 < |text| then i + 50000 else |text|;
    var j := i;
    while j < end
      invariant i <= j <= end && end == Window(text, i)
      invariant ScanState(depth, inString, escapeNext) == Run(text, i, j, startChar, closingChar)
      invariant forall m :: i <= m < j ==> !BalancedAt(text, i, m, startChar, closingChar)
      invariant j > i ==> depth >= 1
    {
      var c := text[j];
      if escapeNext {
        escapeNext := false;
      } else if c == '\\' {
        escapeNext := true;
      } else if c == '"' {
        inString := !inString;
      } else if !inString {
        if c == startChar {
          depth := depth + 1;
        } else if c == closingChar {
          depth := depth - 1;
          if depth == 0 {
            assert BalancedAt(text, i, j, startChar, closingChar);
            return Some(j);
          }
        }
      }
      j := j + 1;
    }
    return None;
  }

  /** Before the first return to zero, the depth stays positive. */
  lemma {:induction false} DepthPositive(text: string, i: nat, m: nat, open: char)
    requires IsOpen(open) && i < m <= |text| && text[i] == open
    requires forall l :: i <= l < m ==> !BalancedAt(text, i, l, open, Partner(open))
    ensures Run(text, i, m, open, Partner(open)).depth >= 1
  {
    if m > i + 1 {
      DepthPositive(text, i, m - 1, open);
      assert !BalancedAt(text, i, m - 1, open, Partner(open));
    }
  }

  lemma FirstStepOpens(text: string, i: nat, open: char)
    requires IsOpen(open) && i < |text| && text[i] == open
    ensures Run(text, i, i + 1, open, Partner(open)).depth == 1
  {
  }

  /** The first return to zero happens on a closing bracket of the scanned kind. */
  lemma FirstBalanceCloses(text: string, i: nat, k: nat, open: char)
    requires IsOpen(open) && i <= k < |text| && text[i] == open
    requires BalancedAt(text, i, k, open, Partner(open))
    requires forall l :: i <= l < k ==> !BalancedAt(text, i, l, open, Partner(open))
    ensures i < k && text[k] == Partner(open)
    ensures !Run(text, i, k, open, Partner(open)).inString
  {
    FirstStepOpens(text, i, open);
    if k > i {
      DepthPositive(text, i, k, open);
    }
  }

  /**
   * A result is the opening bracket found after the white space, through its
   * partner at the first position where the depth returns to zero, all
   * inside the 50 000-character window.
   */
  lemma BalancedJsonShape(text: string, start: nat)
    requires BalancedJson(text, start).Some?
    ensures var i := SkipSpaces(text, start); var s := BalancedJson(text, start).value;
      && i < |text| && IsOpen(text[i])
      && 2 <= |s| && i + |s| <= Window(text, i) && s == text[i..i + |s|]
      && s[0] == text[i] && s[|s| - 1] == Partner(text[i])
      && BalancedAt(text, i, i + |s| - 1, text[i], Partner(text[i]))
      && forall m :: i <= m < i + |s| - 1 ==> !BalancedAt(text, i, m, text[i], Partner(text[i]))
  {
    var i := SkipSpaces(text, start);
    var k := FirstBalanced(text, i, i, Window(text, i), text[i], Partner(text[i])).value;
    FirstBalanceCloses(text, i, k, text[i]);
  }

  /** Conversely, the first return to zero inside the window is found. */
  lemma BalancedJsonFinds(text: string, start: nat, k: nat)
    requires var i := SkipSpaces(text, start);
      && i < |text| && IsOpen(text[i]) && i <= k < Window(text, i)
      && BalancedAt(text, i, k, text[i], Partner(text[i]))
      && forall m :: i <= m < k ==> !BalancedAt(text, i, m, text[i], Partner(text[i]))
    ensures BalancedJson(text, start) == Some(text[SkipSpaces(text, start)..k + 1])
  {
  }

  /** No result when the text ends, the character is not a bracket, or the window closes unbalanced. */
  lemma BalancedJsonNone(text: string, start: nat)
    ensures var i := SkipSpaces(text, start);
      BalancedJson(text, start).None? <==>
        (i >= |text| || !IsOpen(text[i])
         || forall m :: i <= m < Window(text, i) ==> !BalancedAt(text, i, m, text[i], Partner(text[i])))
  {
    var i := SkipSpaces(text, start);
    if i < |text| && IsOpen(text[i]) && BalancedJson(text, start).None? {
      var r := FirstBalanced(text, i, i, Window(text, i), text[i], Partner(text[i]));
      assert r.None?;
    }
  }

  /**
   * Inside a string literal without quotes or backslashes the depth does not
   * move, whatever brackets the literal holds.
   */
  lemma {:induction false} StringLiteralKeepsDepth(text: string, i: nat, a: nat, b: nat, open: char)
    requires IsOpen(open) && i <= a < b <= |text|
    requires var st := Run(text, i, a, open, Partner(open)); !st.inString && !st.escapeNext
    requires text[a] == '"'
    requires forall m :: a < m < b ==> text[m] != '"' && text[m] != '\\'
    ensures Run(text, i, b, open, Partner(open)).depth == Run(text, i, a, open, Partner(open)).depth
    ensures Run(text, i, b, open, Partner(open)).inString && !Run(text, i, b, open, Partner(open)).escapeNext
  {
    if b > a + 1 {
      StringLiteralKeepsDepth(text, i, a, b - 1, open);
    }
  }

  // =====================================================================
  // The SKU list

  /** A parse result that is a non-empty array. */
  predicate NonEmptyArray(v: Option<Json>) {
    v.Some? && v.value.JArr? && |v.value.items| > 0
  }

  /** What pattern `p` yields: its capture parsed as a non-empty array, or nothing. */
  predicate ListCaptured(script: string, matcher: Matcher, parse: Parser, p: Pattern) {
    var cap := matcher(p, script);
    cap.Some? && cap.value != [] && NonEmptyArray(parse(cap.value))
  }

  const SkuMapKey := "\"skuMap\":"
  const SkuPropsKey := "\"skuProps\":"

  /**
   * The SKU list: the first `skuMap` pattern, in order, whose capture parses
   * to a non-empty array; otherwise the balanced scan after `"skuMap":`;
   * otherwise nothing.
   */
  function SkuMap(script: string, matcher: Matcher, parse: Parser): seq<Json> {
    match FirstIndex(SkuMapPatterns, p => ListCaptured(script, matcher, parse, p))
    case Some(k) => parse(matcher(SkuMapPatterns[k], script).value).value.items
    case None =>
      match IndexOf(script, SkuMapKey)
      case None => []
      case Some(idx) =>
        match BalancedJson(script, idx + |SkuMapKey|)
        case None => []
        case Some(e) => if NonEmptyArray(parse(e)) then parse(e).value.items else []
  }

  /** `extractSKUMap(scriptContent)`. */
  method ExtractSKUMap(script: string, matcher: Matcher, parse: Parser) returns (r: seq<Json>)
    ensures r == SkuMap(script, matcher, parse)
  {
    var patterns := SkuMapPatterns;
    var k := 0;
    while k < |patterns|
      invariant 0 <= k <= |patterns|
      invariant forall m :: 0 <= m < k ==> !ListCaptured(script, matcher, parse, patterns[m])
    {
      var cap := matcher(patterns[k], script);
      if cap.Some? && cap.value != [] {
        var parsed := parse(cap.value);
        if parsed.Some? && parsed.value.JArr? && |parsed.value.items| > 0 {
          return parsed.value.items;
        }
      }
      k := k + 1;
    }
    var idx := IndexOf(script, SkuMapKey);
    if idx.Some? {
      var extracted := ExtractBalancedJSON(script, idx.value + |SkuMapKey|);
      if extracted.Some? {
        var parsed := parse(extracted.value);
        if parsed.Some? && parsed.value.JArr? && |parsed.value.items| > 0 {
          return parsed.value.items;
        }
      }
    }
    return [];
  }

  // =====================================================================
  // The image map

  /** SKU name to image, in insertion order. */
  type ImageMap = seq<(string, Json)>

  /**
   * The map after a loop, and whether the loop stopped early: a `forEach`
   * whose callback threw part-way, or the pattern loop that returned once
   * the map was filled.
   */
  datatype Fill = Fill(entries: ImageMap, stopped: bool)

  /** An option that contributes `name → imageUrl`: an object with both truthy. */
  predicate Contributes(o: Json) {
    o.JObj? && Truthy(Lookup(o.fields, "name")) && Truthy(Lookup(o.fields, "imageUrl"))
  }

  function NameKey(o: Json): string
    requires Contributes(o)
  {
    ToStr(Lookup(o.fields, "name"))
  }

  function ImageOf(o: Json): Json
    requires Contributes(o)
  {
    Lookup(o.fields, "imageUrl").value
  }

  /** `options.forEach(...)` from the start; reading `name` of a null option throws. */
  function FillOptions(m: ImageMap, options: seq<Json>): Fill
    decreases |options|
  {
    if options == [] then Fill(m, false)
    else if options[0].JNull? then Fill(m, true)
    else if Contributes(options[0]) then FillOptions(Put(m, NameKey(options[0]), ImageOf(options[0])), options[1..])
    else FillOptions(m, options[1..])
  }

  /** `props.forEach(...)`; reading `value` of a null prop throws. */
  function FillProps(m: ImageMap, props: seq<Json>): Fill
    decreases |props|
  {
    if props == [] then Fill(m, false)
    else if props[0].JNull? then Fill(m, true)
    else
      var v := Lookup(if props[0].JObj? then props[0].fields else [], "value");
      if v.Some? && v.value.JArr? then
        var f := FillOptions(m, v.value.items);
        if f.stopped then f else FillProps(f.entries, props[1..])
      else FillProps(m, props[1..])
  }

  method AddOptions(m0: ImageMap, options: seq<Json>) returns (f: Fill)
    ensures f == FillOptions(m0, options)
  {
    var m := m0;
    var k := 0;
    while k < |options|
      invariant 0 <= k <= |options|
      invariant FillOptions(m, options[k..]) == FillOptions(m0, options)
    {
      var option := options[k];
      assert options[k..][1..] == options[k + 1..];
      if option.JNull? {
        return Fill(m, true);
      }
      var name := Lookup(if option.JObj? then option.fields else [], "name");
      var url := Lookup(if option.JObj? then option.fields else [], "imageUrl");
      if Truthy(name) && Truthy(url) {
        m := Put(m, ToStr(name), url.value);
      }
      k := k + 1;
    }
    return Fill(m, false);
  }

  method AddProps(m0: ImageMap, props: seq<Json>) returns (f: Fill)
    ensures f == FillProps(m0, props)
  {
    var m := m0;
    var k := 0;
    while k < |props|
      invariant 0 <= k <= |props|
      invariant FillProps(m, props[k..]) == FillProps(m0, props)
    {
      var prop := props[k];
      assert props[k..][1..] == props[k + 1..];
      if prop.JNull? {
        return Fill(m, true);
      }
      var v := Lookup(if prop.JObj? then prop.fields else [], "value");
      if v.Some? && v.value.JArr? {
        var g := AddOptions(m, v.value.items);
        m := g.entries;
        if g.stopped {
          return Fill(m, true);
        }
      }
      k := k + 1;
    }
    return Fill(m, false);
  }

  /** The `skuProps` capture of pattern `p`, when it parses to an array. */
  function PropsCaptured(script: string, matcher: Matcher, parse: Parser, p: Pattern): Option<seq<Json>> {
    var cap := matcher(p, script);
    if cap.Some? && cap.value != [] && parse(cap.value).Some? && parse(cap.value).value.JArr?
    then Some(parse(cap.value).value.items)
    else None
  }

  /**
   * The pattern loop of `extractSKUImages` from pattern `k` on: entries
   * accumulate across patterns, and the loop stops at the first pattern
   * whose array filled without throwing and left the map non-empty.
   */
  function ImagesFromPatterns(script: string, matcher: Matcher, parse: Parser, m: ImageMap, k: nat): Fill
    requires k <= |SkuPropsPatterns|
    decreases |SkuPropsPatterns| - k
  {
    if k == |SkuPropsPatterns| then Fill(m, false)
    else
      match PropsCaptured(script, matcher, parse, SkuPropsPatterns[k])
      case None => ImagesFromPatterns(script, matcher, parse, m, k + 1)
      case Some(props) =>
        var f := FillProps(m, props);
        if !f.stopped && |f.entries| > 0 then Fill(f.entries, true)
        else ImagesFromPatterns(script, matcher, parse, f.entries, k + 1)
  }

  /** The image map: the pattern loop, then the balanced scan after `"skuProps":`. */
  function SkuImages(script: string, matcher: Matcher, parse: Parser): ImageMap {
    var f := ImagesFromPatterns(script, matcher, parse, [], 0);
    if f.stopped then f.entries
    else
      match IndexOf(script, SkuPropsKey)
      case None => f.entries
      case Some(idx) =>
        match BalancedJson(script, idx + |SkuPropsKey|)
        case None => f.entries
        case Some(e) =>
          if parse(e).Some? && parse(e).value.JArr? then FillProps(f.entries, parse(e).value.items).entries
          else f.entries
  }

  /** `extractSKUImages(scriptContent)`. */
  method ExtractSKUImages(script: string, matcher: Matcher, parse: Parser) returns (m: ImageMap)
    ensures m == SkuImages(script, matcher, parse)
  {
    m := [];
    var patterns := SkuPropsPatterns;
    var k := 0;
    while k < |patterns|
      invariant 0 <= k <= |patterns|
      invariant ImagesFromPatterns(script, matcher, parse, m, k) == ImagesFromPatterns(script, matcher, parse, [], 0)
    {
      var cap := matcher(patterns[k], script);
      if cap.Some? && cap.value != [] {
        var parsed := parse(cap.value);
        if parsed.Some? && parsed.value.JArr? {
          var f := AddProps(m, parsed.value.items);
          m := f.entries;
          if !f.stopped && |m| > 0 {
            return m;
          }
        }
      }
      k := k + 1;
    }
    var idx := IndexOf(script, SkuPropsKey);
    if idx.Some? {
      var extracted := ExtractBalancedJSON(script, idx.value + |SkuPropsKey|);
      if extracted.Some? {
        var parsed := parse(extracted.value);
        if parsed.Some? && parsed.value.JArr? {
          var f := AddProps(m, parsed.value.items);
          m := f.entries;
        }
      }
    }
  }

  /** The option with the highest index naming `key`, if any, decides its image. */
  predicate Names(o: Json, key: string) {
    Contributes(o) && NameKey(o) == key
  }

  lemma {:induction false} FillOptionsNoThrow(m: ImageMap, options: seq<Json>)
    requires forall j :: 0 <= j < |options| ==> !options[j].JNull?
    ensures !FillOptions(m, options).stopped
    decreases |options|
  {
    if options != [] {
      var o := options[0];
      FillOptionsNoThrow(if Contributes(o) then Put(m, NameKey(o), ImageOf(o)) else m, options[1..]);
    }
  }

  /** A key that no option names keeps its previous image. */
  lemma {:induction false} FillOptionsUnnamed(m: ImageMap, options: seq<Json>, key: string)
    requires forall j :: 0 <= j < |options| ==> !Names(options[j], key)
    ensures Lookup(FillOptions(m, options).entries, key) == Lookup(m, key)
    decreases |options|
  {
    if options != [] && !options[0].JNull? {
      var o := options[0];
      assert forall j :: 0 <= j < |options| - 1 ==> options[1..][j] == options[j + 1];
      FillOptionsUnnamed(if Contributes(o) then Put(m, NameKey(o), ImageOf(o)) else m, options[1..], key);
    }
  }

  /**
   * The image for `key` is the one of the last option naming it: a later
   * option with the same name overwrites an earlier one.
   */
  lemma {:induction false} FillOptionsLastWins(m: ImageMap, options: seq<Json>, key: string, j: nat)
    requires forall l :: 0 <= l < |options| ==> !options[l].JNull?
    requires j < |options| && Names(options[j], key)
    requires forall l :: j < l < |options| ==> !Names(options[l], key)
    ensures Lookup(FillOptions(m, options).entries, key) == Some(ImageOf(options[j]))
    decreases |options|
  {
    FillOptionsCons(m, options);
    if j == 0 {
      LastNamingFirst(m, options, key);
    } else {
      var rest := options[1..];
      assert forall l :: 0 <= l < |rest| ==> rest[l] == options[l + 1];
      FillOptionsLastWins(Absorb(m, options[0]), rest, key, j - 1);
    }
  }

  /** The map after one non-null option. */
  function Absorb(m: ImageMap, o: Json): ImageMap {
    if Contributes(o) then Put(m, NameKey(o), ImageOf(o)) else m
  }

  lemma FillOptionsCons(m: ImageMap, options: seq<Json>)
    requires options != [] && !options[0].JNull?
    ensures FillOptions(m, options) == FillOptions(Absorb(m, options[0]), options[1..])
  {
  }

  /** The first option names the key and no later one does. */
  lemma LastNamingFirst(m: ImageMap, options: seq<Json>, key: string)
    requires options != [] && Names(options[0], key)
    requires forall l :: 0 < l < |options| ==> !Names(options[l], key)
    ensures Lookup(FillOptions(Absorb(m, options[0]), options[1..]).entries, key) == Some(ImageOf(options[0]))
  {
    var rest := options[1..];
    assert forall l :: 0 <= l < |rest| ==> rest[l] == options[l + 1];
    FillOptionsUnnamed(Absorb(m, options[0]), rest, key);
  }

  /** Every image value in a map built from options is truthy. */
  predicate AllTruthy(m: ImageMap) {
    forall k :: 0 <= k < |m| ==> Truthy(Some(m[k].1))
  }

  lemma PutTruthy(m: ImageMap, key: string, v: Json)
    requires AllTruthy(m) && Truthy(Some(v))
    ensures AllTruthy(Put(m, key, v))
  {
    if m != [] && m[0].0 != key {
      PutTruthy(m[1..], key, v);
    }
  }

  lemma {:induction false} FillOptionsTruthy(m: ImageMap, options: seq<Json>)
    requires AllTruthy(m)
    ensures AllTruthy(FillOptions(m, options).entries)
    decreases |options|
  {
    if options != [] && !options[0].JNull? {
      if Contributes(options[0]) {
        PutTruthy(m, NameKey(options[0]), ImageOf(options[0]));
        FillOptionsTruthy(Put(m, NameKey(options[0]), ImageOf(options[0])), options[1..]);
      } else {
        FillOptionsTruthy(m, options[1..]);
      }
    }
  }

  lemma {:induction false} FillPropsTruthy(m: ImageMap, props: seq<Json>)
    requires AllTruthy(m)
    ensures AllTruthy(FillProps(m, props).entries)
    decreases |props|
  {
    if props != [] && !props[0].JNull? {
      var v := Lookup(if props[0].JObj? then props[0].fields else [], "value");
      if v.Some? && v.value.JArr? {
        FillOptionsTruthy(m, v.value.items);
        var f := FillOptions(m, v.value.items);
        if !f.stopped {
          FillPropsTruthy(f.entries, props[1..]);
        }
      } else {
        FillPropsTruthy(m, props[1..]);
      }
    }
  }

  lemma {:induction false} ImagesFromPatternsTruthy(script: string, matcher: Matcher, parse: Parser, m: ImageMap, k: nat)
    requires k <= |SkuPropsPatterns| && AllTruthy(m)
    ensures AllTruthy(ImagesFromPatterns(script, matcher, parse, m, k).entries)
    decreases |SkuPropsPatterns| - k
  {
    if k < |SkuPropsPatterns| {
      match PropsCaptured(script, matcher, parse, SkuPropsPatterns[k])
      case None =>
        ImagesFromPatternsTruthy(script, matcher, parse, m, k + 1);
      case Some(props) =>
        FillPropsTruthy(m, props);
        ImagesFromPatternsTruthy(script, matcher, parse, FillProps(m, props).entries, k + 1);
    }
  }

  /** Only truthy image values ever enter the image map. */
  lemma SkuImagesTruthy(script: string, matcher: Matcher, parse: Parser)
    ensures AllTruthy(SkuImages(script, matcher, parse))
  {
    ImagesFromPatternsTruthy(script, matcher, parse, [], 0);
    var f := ImagesFromPatterns(script, matcher, parse, [], 0);
    if !f.stopped {
      match IndexOf(script, SkuPropsKey)
      case None =>
      case Some(idx) =>
        match BalancedJson(script, idx + |SkuPropsKey|)
        case None =>
        case Some(e) =>
          if parse(e).Some? && parse(e).value.JArr? {
            FillPropsTruthy(f.entries, parse(e).value.items);
          }
    }
  }

  // =====================================================================
  // The SKU data of a script

  datatype ParsedSKUData = ParsedSKUData(skuMap: seq<Json>, skuImages: ImageMap)

  /** No SKU data without a non-empty SKU list; otherwise the list and the image map. */
  function SkuData(script: string, matcher: Matcher, parse: Parser): Option<ParsedSKUData> {
    var list := SkuMap(script, matcher, parse);
    if |list| == 0 then None else Some(ParsedSKUData(list, SkuImages(script, matcher, parse)))
  }

  /** `extractSKUDataFromScript(scriptContent)`; the parts that could throw catch internally. */
  method ExtractSKUDataFromScript(script: string, matcher: Matcher, parse: Parser) returns (r: Option<ParsedSKUData>)
    ensures r == SkuData(script, matcher, parse)
    ensures r.None? <==> SkuMap(script, matcher, parse) == []
    ensures r.Some? ==> r.value.skuMap == SkuMap(script, matcher, parse) && AllTruthy(r.value.skuImages)
  {
    var skuMap := ExtractSKUMap(script, matcher, parse);
    if |skuMap| == 0 {
      return None;
    }
    var skuImages := ExtractSKUImages(script, matcher, parse);
    SkuImagesTruthy(script, matcher, parse);
    return Some(ParsedSKUData(skuMap, skuImages));
  }

  // =====================================================================
  // SKU name matching

  /** Every white-space character is a single plain space between non-spaces. */
  predicate SingleSpaced(s: string) {
    forall k :: 0 <= k < |s| ==> PlainSpaceAt(s, k)
  }

  /** Position `k` is not white space, or is a plain space not followed by more. */
  predicate PlainSpaceAt(s: string, k: nat)
    requires k < |s|
  {
    IsSpace(s[k]) ==> s[k] == ' ' && (k + 1 < |s| ==> !IsSpace(s[k + 1]))
  }

  predicate NoOuterSpace(s: string) {
    s == [] || (!IsSpace(s[0]) && !IsSpace(s[|s| - 1]))
  }

  /** A normalised name: trimmed, single-spaced and lower-case. */
  predicate IsNormalizedName(s: string) {
    NoOuterSpace(s) && SingleSpaced(s) && Lower(s) == s
  }

  /** `s.replace(/\s+/g, ' ')`. */
  function CollapseSpaces(s: string): (r: string)
    decreases |s|
  {
    if s == [] then []
    else if IsSpace(s[0]) then
      var rest := TrimStart(s);
      " " + CollapseSpaces(rest)
    else [s[0]] + CollapseSpaces(s[1..])
  }

  /** Prefixing one character keeps a string single-spaced when that character fits. */
  lemma SingleSpacedCons(c: char, t: string)
    requires SingleSpaced(t)
    requires IsSpace(c) ==> c == ' ' && (t != [] ==> !IsSpace(t[0]))
    ensures SingleSpaced([c] + t)
  {
    var u := [c] + t;
    forall k | 0 <= k < |u|
      ensures PlainSpaceAt(u, k)
    {
      if k > 0 {
        assert PlainSpaceAt(t, k - 1);
        assert u[k] == t[k - 1];
        if k + 1 < |u| {
          assert u[k + 1] == t[k];
        }
      }
    }
  }

  lemma {:induction false} CollapseSingleSpaced(s: string)
    ensures SingleSpaced(CollapseSpaces(s))
    ensures s != [] ==> CollapseSpaces(s) != [] && (IsSpace(s[0]) <==> IsSpace(CollapseSpaces(s)[0]))
    decreases |s|
  {
    if s != [] {
      if IsSpace(s[0]) {
        var rest := TrimStart(s);
        CollapseSingleSpaced(rest);
        SingleSpacedCons(' ', CollapseSpaces(rest));
        assert CollapseSpaces(s) == [' '] + CollapseSpaces(rest);
      } else {
        CollapseSingleSpaced(s[1..]);
        SingleSpacedCons(s[0], CollapseSpaces(s[1..]));
        assert CollapseSpaces(s) == [s[0]] + CollapseSpaces(s[1..]);
      }
    }
  }

  lemma {:induction false} CollapseLast(s: string)
    requires s != [] && !IsSpace(s[|s| - 1])
    ensures CollapseSpaces(s) != [] && CollapseSpaces(s)[|CollapseSpaces(s)| - 1] == s[|s| - 1]
    decreases |s|
  {
    if IsSpace(s[0]) {
      var rest := TrimStart(s);
      assert rest != [] && rest[|rest| - 1] == s[|s| - 1];
      CollapseLast(rest);
    } else if |s| > 1 {
      CollapseLast(s[1..]);
    }
  }

  lemma SingleSpacedTail(s: string)
    requires s != [] && SingleSpaced(s)
    ensures SingleSpaced(s[1..])
  {
    forall k | 0 <= k < |s| - 1
      ensures PlainSpaceAt(s[1..], k)
    {
      assert PlainSpaceAt(s, k + 1);
      assert s[1..][k] == s[k + 1];
      if k + 1 < |s| - 1 {
        assert s[1..][k + 1] == s[k + 2];
      }
    }
  }

  /** Collapsing changes nothing in a single-spaced string. */
  lemma {:induction false} CollapseOfSingleSpaced(s: string)
    requires SingleSpaced(s)
    ensures CollapseSpaces(s) == s
    decreases |s|
  {
    if s != [] {
      SingleSpacedTail(s);
      CollapseOfSingleSpaced(s[1..]);
      if IsSpace(s[0]) {
        assert PlainSpaceAt(s, 0);
        assert TrimStart(s) == s[1..];
      }
    }
  }

  /** Collapsing a trimmed string leaves it trimmed and single-spaced. */
  lemma CollapseShape(t: string)
    requires NoOuterSpace(t)
    ensures SingleSpaced(CollapseSpaces(t)) && NoOuterSpace(CollapseSpaces(t))
  {
    CollapseSingleSpaced(t);
    if t != [] {
      CollapseLast(t);
    }
  }

  lemma LowerKeepsShape(s: string)
    requires SingleSpaced(s) && NoOuterSpace(s)
    ensures SingleSpaced(Lower(s)) && NoOuterSpace(Lower(s))
  {
    LowerChars(s);
    forall k | 0 <= k < |s|
      ensures IsSpace(Lower(s)[k]) <==> IsSpace(s[k])
      ensures IsSpace(s[k]) ==> Lower(s)[k] == s[k]
    {
      LowerKeepsSpaces(s[k]);
    }
    forall k | 0 <= k < |s|
      ensures PlainSpaceAt(Lower(s), k)
    {
      assert PlainSpaceAt(s, k);
    }
  }

  /** `normalizeSKUName(name)`: trim, collapse white-space runs to one space, lower-case. */
  function NormalizeSKUName(name: string): string {
    Lower(CollapseSpaces(Trim(name)))
  }

  /** A normalised name is trimmed, single-spaced and lower-case. */
  lemma NormalizeSKUNameShape(name: string)
    ensures IsNormalizedName(NormalizeSKUName(name))
  {
    var c := CollapseSpaces(Trim(name));
    CollapseShape(Trim(name));
    LowerKeepsShape(c);
    LowerIdempotent(c);
  }

  /** Normalised names are exactly the fixed points of the normalisation. */
  lemma NormalizeFixedPoint(s: string)
    requires IsNormalizedName(s)
    ensures NormalizeSKUName(s) == s
  {
    TrimOfTrimmed(s);
    CollapseOfSingleSpaced(s);
  }

  lemma NormalizeSKUNameIdempotent(name: string)
    ensures NormalizeSKUName(NormalizeSKUName(name)) == NormalizeSKUName(name)
  {
    NormalizeSKUNameShape(name);
    NormalizeFixedPoint(NormalizeSKUName(name));
  }

  /** The containment tier: one normalised name includes the other. */
  predicate Overlaps(key: string, target: string) {
    var nk := NormalizeSKUName(key);
    Contains(target, nk) || Contains(nk, target)
  }

  /** The first entry whose normalised name equals `n`. */
  function SameNameIndex(imageMap: ImageMap, n: string): (r: Option<nat>)
    ensures r.Some? ==> r.value < |imageMap| && NormalizeSKUName(imageMap[r.value].0) == n
    ensures r.Some? ==> forall k :: 0 <= k < r.value ==> NormalizeSKUName(imageMap[k].0) != n
    ensures r.None? ==> forall k :: 0 <= k < |imageMap| ==> NormalizeSKUName(imageMap[k].0) != n
  {
    FirstIndex(imageMap, (e: (string, Json)) => NormalizeSKUName(e.0) == n)
  }

  /** The first entry whose normalised name overlaps `n`. */
  function OverlapIndex(imageMap: ImageMap, n: string): (r: Option<nat>)
    ensures r.Some? ==> r.value < |imageMap| && Overlaps(imageMap[r.value].0, n)
    ensures r.Some? ==> forall k :: 0 <= k < r.value ==> !Overlaps(imageMap[k].0, n)
    ensures r.None? ==> forall k :: 0 <= k < |imageMap| ==> !Overlaps(imageMap[k].0, n)
  {
    FirstIndex(imageMap, (e: (string, Json)) => Overlaps(e.0, n))
  }

  /**
   * The image for a SKU: an exact key with a truthy value; otherwise the
   * first entry whose normalised name is equal; otherwise the first entry
   * whose normalised name contains or is contained in it.
   */
  function ImageForSKU(skuName: string, imageMap: ImageMap): Value {
    var direct := Lookup(imageMap, skuName);
    if Truthy(direct) then direct
    else
      var n := NormalizeSKUName(skuName);
      match SameNameIndex(imageMap, n)
      case Some(k) => Some(imageMap[k].1)
      case None =>
        match OverlapIndex(imageMap, n)
        case Some(k) => Some(imageMap[k].1)
        case None => None
  }

  /** The normalised-equality loop of `findImageForSKU`. */
  method SearchSameName(imageMap: ImageMap, normalizedName: string) returns (r: Option<nat>)
    ensures r == SameNameIndex(imageMap, normalizedName)
  {
    var k := 0;
    while k < |imageMap| && NormalizeSKUName(imageMap[k].0) != normalizedName
      invariant 0 <= k <= |imageMap|
      invariant forall m :: 0 <= m < k ==> NormalizeSKUName(imageMap[m].0) != normalizedName
    {
      k := k + 1;
    }
    r := if k < |imageMap| then Some(k) else None;
    SameNameIndexUnique(imageMap, normalizedName, r);
  }

  /** Only the first index of an equal normalised name, or None when there is none, meets the contract of `SameNameIndex`. */
  lemma SameNameIndexUnique(imageMap: ImageMap, n: string, r: Option<nat>)
    requires r.Some? ==> r.value < |imageMap| && NormalizeSKUName(imageMap[r.value].0) == n
    requires forall k :: 0 <= k < |imageMap| && (r.None? || k < r.value) ==> NormalizeSKUName(imageMap[k].0) != n
    ensures r == SameNameIndex(imageMap, n)
  {
  }

  /** The containment loop of `findImageForSKU`. */
  method SearchOverlap(imageMap: ImageMap, normalizedName: string) returns (r: Option<nat>)
    ensures r == OverlapIndex(imageMap, normalizedName)
  {
    var k := 0;
    while k < |imageMap| && !Overlaps(imageMap[k].0, normalizedName)
      invariant 0 <= k <= |imageMap|
      invariant forall m :: 0 <= m < k ==> !Overlaps(imageMap[m].0, normalizedName)
    {
      k := k + 1;
    }
    r := if k < |imageMap| then Some(k) else None;
    OverlapIndexUnique(imageMap, normalizedName, r);
  }

  /** Only the first overlapping index, or None when nothing overlaps, meets the contract of `OverlapIndex`. */
  lemma OverlapIndexUnique(imageMap: ImageMap, n: string, r: Option<nat>)
    requires r.Some? ==> r.value < |imageMap| && Overlaps(imageMap[r.value].0, n)
    requires forall k :: 0 <= k < |imageMap| && (r.None? || k < r.value) ==> !Overlaps(imageMap[k].0, n)
    ensures r == OverlapIndex(imageMap, n)
  {
  }

  /** `findImageForSKU(skuName, imageMap)`. */
  method FindImageForSKU(skuName: string, imageMap: ImageMap) returns (r: Value)
    ensures r == ImageForSKU(skuName, imageMap)
  {
    var direct := Lookup(imageMap, skuName);
    if Truthy(direct) {
      return direct;
    }
    var normalizedName := NormalizeSKUName(skuName);
    var same := SearchSameName(imageMap, normalizedName);
    if same.Some? {
      return Some(imageMap[same.value].1);
    }
    var partial := SearchOverlap(imageMap, normalizedName);
    if partial.Some? {
      return Some(imageMap[partial.value].1);
    }
    return None;
  }

  /**
   * Equal names also overlap, so there is no image exactly when the exact
   * key misses and no entry overlaps the normalised name.
   */
  lemma ImageForSKUNone(skuName: string, imageMap: ImageMap)
    ensures ImageForSKU(skuName, imageMap).None? <==>
      (!Truthy(Lookup(imageMap, skuName))
       && forall k :: 0 <= k < |imageMap| ==> !Overlaps(imageMap[k].0, NormalizeSKUName(skuName)))
  {
    var n := NormalizeSKUName(skuName);
    forall k | 0 <= k < |imageMap| && NormalizeSKUName(imageMap[k].0) == n
      ensures Overlaps(imageMap[k].0, n)
    {
      ContainsAt(n, n, 0);
    }
  }

  /**
   * A name that normalises to "" is contained in every name, so unless an
   * earlier tier hits it takes the first entry of any non-empty map.
   */
  lemma EmptyNameTakesFirstEntry(skuName: string, imageMap: ImageMap)
    requires NormalizeSKUName(skuName) == [] && |imageMap| > 0
    requires !Truthy(Lookup(imageMap, skuName))
    requires forall k :: 0 <= k < |imageMap| ==> NormalizeSKUName(imageMap[k].0) != []
    ensures ImageForSKU(skuName, imageMap) == Some(imageMap[0].1)
  {
    ContainsEmpty(NormalizeSKUName(imageMap[0].0));
  }
}
