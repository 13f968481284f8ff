/**
 * The image-URL rewriting of the DOM extractor: trim, drop a thumbnail
 * suffix such as `_50x50` or `_sum` before the extension, force an `https:`
 * prefix, make sure an image extension ends the path, and drop a `_WxH`
 * size after the extension. The two global replacements are written as
 * left-to-right scans that skip past each match, as a global `replace` does;
 * letters in the patterns are compared without case.
 */
module DomImageUrl {
  import opened Wrappers
  import opened Text
  import opened Urls

  const ThumbSizes: seq<string> := ["50x50", "60x60", "sum", "thumbnail"]
  const ThumbExtensions: seq<string> := ["jpg", "png", "webp"]
  const DomExtensions: seq<string> := ["jpg", "jpeg", "png", "webp", "gif"]

  /** The lower-case `p` starts `s`, letters compared without case. */
  predicate PrefixNoCase(s: string, p: string) {
    |p| <= |s| && Lower(s[..|p|]) == p
  }

  /** The first alternative that starts `s`, as it is written in `s`. */
  function MatchOneOf(s: string, alts: seq<string>): (r: Option<string>)
    ensures r.Some? ==> |r.value| <= |s| && r.value == s[..|r.value|] && Lower(r.value) in alts
    ensures r.None? ==> forall k :: 0 <= k < |alts| ==> !PrefixNoCase(s, alts[k])
  {
    if alts == [] then None
    else if PrefixNoCase(s, alts[0]) then Some(s[..|alts[0]|])
    else MatchOneOf(s, alts[1..])
  }

  /**
   * One step of a global `replace`: at the start of `s`, the length of the
   * match and the text that replaces it.
   */
  type Matcher = string -> Option<(nat, string)>

  /**
   * `s.replace(/pattern/g, ...)`: matches tried left to right, the scan going
   * on after each match. A pattern here always consumes a character, so a
   * match of length zero is read as no match.
   */
  function ReplaceAll(s: string, m: Matcher): string
    decreases |s|
  {
    if s == [] then []
    else match m(s)
      case Some((n, out)) =>
        if 0 < n <= |s| then out + ReplaceAll(s[n..], m) else [s[0]] + ReplaceAll(s[1..], m)
      case None => [s[0]] + ReplaceAll(s[1..], m)
  }

  /**
   * `_(50x50|60x60|sum|thumbnail)\.(jpg|png|webp)` at the start of `s`,
   * replaced by `.$2`: the dot and the extension as written.
   */
  function ThumbAt(s: string): (r: Option<(nat, string)>)
    ensures r.Some? ==> s != [] && s[0] == '_' && 0 < r.value.0 <= |s|
  {
    if s == [] || s[0] != '_' then None
    else match MatchOneOf(s[1..], ThumbSizes)
      case None => None
      case Some(size) =>
        var i := 1 + |size|;
        if i < |s| && s[i] == '.' then
          match MatchOneOf(s[i + 1..], ThumbExtensions)
          case None => None
          case Some(ext) => Some((i + 1 + |ext|, "." + ext))
        else None
  }

  /** `s.replace(/_(50x50|60x60|sum|thumbnail)\.(jpg|png|webp)/gi, '.$2')`. */
  function StripThumbnails(s: string): string {
    ReplaceAll(s, ThumbAt)
  }

  /** `\d+x\d+` at `i` of `s`: where the match ends. */
  function DimsAt(s: string, i: nat): (r: Option<nat>)
    requires i <= |s|
    ensures r.Some? ==> i < r.value <= |s|
  {
    var d1 := DigitRun(s, i);
    var j := i + |d1|;
    if d1 != [] && j < |s| && (s[j] == 'x' || s[j] == 'X') then
      var d2 := DigitRun(s, j + 1);
      if d2 != [] then Some(j + 1 + |d2|) else None
    else None
  }

  /** `\.(jpg|png|webp)_\d+x\d+` at the start of `s`, replaced by `$1`: the `.ext` it keeps. */
  function SizeAt(s: string): (r: Option<(nat, string)>)
    ensures r.Some? ==> s != [] && s[0] == '.' && 0 < r.value.0 <= |s|
    ensures r.Some? ==> |r.value.1| <= r.value.0 && r.value.1 == s[..|r.value.1|]
  {
    if s == [] || s[0] != '.' then None
    else match MatchOneOf(s[1..], ThumbExtensions)
      case None => None
      case Some(ext) =>
        var i := 1 + |ext|;
        if i < |s| && s[i] == '_' then
          match DimsAt(s, i + 1)
          case None => None
          case Some(n) => Some((n, s[..i]))
        else None
  }

  /** `s.replace(/(\.(jpg|png|webp))_\d+x\d+/gi, '$1')`. */
  function StripSizes(s: string): string {
    ReplaceAll(s, SizeAt)
  }

  /** `https:` in front of a protocol-relative URL and of anything else not starting with `http`. */
  function WithHttps(s: string): string {
    if StartsWith(s, "//") then "https:" + s
    else if !StartsWith(s, "http") then "https:" + s
    else s
  }

  /** `.jpg` appended unless `\.(jpg|jpeg|png|webp|gif)($|\?)` matches, without case. */
  function WithExtension(s: string): string {
    if HasExtension(s, DomExtensions) then s else s + ".jpg"
  }

  /** `normalizeImageUrl(url)` of the DOM extractor. */
  function NormalizeImageUrl(url: string): string {
    StripSizes(WithExtension(WithHttps(StripThumbnails(Trim(url)))))
  }

  // ---------------------------------------------------------------------
  // properties

  /** A lower-case alternative that starts `s` fixes the first letter of `s`, up to case. */
  lemma PrefixFirstChar(s: string, p: string)
    requires p != [] && PrefixNoCase(s, p)
    ensures LowerChar(s[0]) == p[0]
  {
    assert Lower(s[..|p|])[0] == LowerChar(s[..|p|][0]);
  }

  /** When no other alternative shares its first letter, the one that starts `s` is the one found. */
  lemma {:induction false} MatchOneOfDistinct(s: string, alts: seq<string>, a: string)
    requires a in alts && a != [] && PrefixNoCase(s, a)
    requires forall k :: 0 <= k < |alts| ==> alts[k] != [] && (alts[k][0] == a[0] ==> alts[k] == a)
    ensures MatchOneOf(s, alts) == Some(s[..|a|])
    decreases |alts|
  {
    if alts[0] != a {
      PrefixFirstChar(s, a);
      if PrefixNoCase(s, alts[0]) {
        PrefixFirstChar(s, alts[0]);
      }
      assert a in alts[1..];
      MatchOneOfDistinct(s, alts[1..], a);
    }
  }

  /** The lower-case alternatives: each one starts `p + rest` when it is `p`. */
  lemma PrefixOfLowerWord(p: string, rest: string)
    requires Lower(p) == p
    ensures PrefixNoCase(p + rest, p)
  {
    assert (p + rest)[..|p|] == p;
  }

  lemma ThumbSizeFound(size: string, rest: string)
    requires size in ThumbSizes
    ensures MatchOneOf(size + rest, ThumbSizes) == Some(size)
  {
    assert Lower(size) == size by {
      LowerChars(size);
    }
    PrefixOfLowerWord(size, rest);
    MatchOneOfDistinct(size + rest, ThumbSizes, size);
    assert (size + rest)[..|size|] == size;
  }

  lemma ThumbExtensionFound(ext: string, rest: string)
    requires ext in ThumbExtensions
    ensures MatchOneOf(ext + rest, ThumbExtensions) == Some(ext)
  {
    assert Lower(ext) == ext by {
      LowerChars(ext);
    }
    PrefixOfLowerWord(ext, rest);
    MatchOneOfDistinct(ext + rest, ThumbExtensions, ext);
    assert (ext + rest)[..|ext|] == ext;
  }

  /** `c` does not occur in `s`. */
  predicate NoChar(s: string, c: char) {
    forall k :: 0 <= k < |s| ==> s[k] != c
  }

  lemma NoCharConcat(a: string, b: string, c: char)
    requires NoChar(a, c) && NoChar(b, c)
    ensures NoChar(a + b, c)
  {
    assert forall k :: 0 <= k < |a + b| ==> (a + b)[k] == if k < |a| then a[k] else b[k - |a|];
  }

  /** Lower-casing introduces no `.`. */
  lemma LowerNoDot(s: string)
    requires NoChar(s, '.')
    ensures NoChar(Lower(s), '.')
  {
    LowerChars(s);
  }

  /** Every match of `m` starts with `c`. */
  ghost predicate StartsWithChar(m: Matcher, c: char) {
    forall t :: m(t).Some? ==> t != [] && t[0] == c
  }

  /** The scan copies a character at which the pattern does not match. */
  lemma ReplaceAllCopies(t: string, m: Matcher)
    requires t != [] && m(t).None?
    ensures ReplaceAll(t, m) == [t[0]] + ReplaceAll(t[1..], m)
  {
  }

  /** Text without the character every match starts with passes the scan unchanged. */
  lemma {:induction false} ReplaceAllKeepsPlain(p: string, s: string, m: Matcher, c: char)
    requires StartsWithChar(m, c) && NoChar(p, c)
    ensures ReplaceAll(p + s, m) == p + ReplaceAll(s, m)
    decreases |p|
  {
    if p == [] {
      assert p + s == s;
    } else {
      var t := p + s;
      assert t[0] == p[0];
      ReplaceAllCopies(t, m);
      assert t[1..] == p[1..] + s;
      ReplaceAllKeepsPlain(p[1..], s, m, c);
      assert p == [p[0]] + p[1..];
    }
  }

  /** A match that covers the whole text leaves just its replacement. */
  lemma ReplaceAllWhole(s: string, m: Matcher, out: string)
    requires s != [] && m(s) == Some((|s|, out))
    ensures ReplaceAll(s, m) == out
  {
    assert s[|s|..] == [];
    assert out + [] == out;
  }

  /** Text with no `_` passes the thumbnail scan unchanged. */
  lemma StripThumbnailsKeepsPlain(p: string, s: string)
    requires NoChar(p, '_')
    ensures StripThumbnails(p + s) == p + StripThumbnails(s)
  {
    ReplaceAllKeepsPlain(p, s, ThumbAt, '_');
  }

  /** Text with no `.` passes the size scan unchanged. */
  lemma StripSizesKeepsPlain(p: string, s: string)
    requires NoChar(p, '.')
    ensures StripSizes(p + s) == p + StripSizes(s)
  {
    ReplaceAllKeepsPlain(p, s, SizeAt, '.');
  }

  /** The thumbnail pattern matches the whole of `_size.ext`. */
  lemma ThumbAtWhole(size: string, ext: string)
    requires size in ThumbSizes && ext in ThumbExtensions
    ensures ThumbAt("_" + size + "." + ext) == Some((2 + |size| + |ext|, "." + ext))
  {
    var s := "_" + size + "." + ext;
    assert s[1..] == size + ("." + ext);
    ThumbSizeFound(size, "." + ext);
    assert s[2 + |size|..] == ext + [];
    ThumbExtensionFound(ext, []);
    assert s[0] == '_' && s[1 + |size|] == '.';
    ThumbAtOf(s, size, ext);
  }

  /** The pattern read off `s` piece by piece. */
  lemma ThumbAtOf(s: string, size: string, ext: string)
    requires |s| == 2 + |size| + |ext| && s[0] == '_' && s[1 + |size|] == '.'
    requires MatchOneOf(s[1..], ThumbSizes) == Some(size)
    requires MatchOneOf(s[2 + |size|..], ThumbExtensions) == Some(ext)
    ensures ThumbAt(s) == Some((|s|, "." + ext))
  {
  }

  /** The scan turns a lone `_size.ext` into `.ext`. */
  lemma ThumbSuffixStripped(size: string, ext: string)
    requires size in ThumbSizes && ext in ThumbExtensions
    ensures StripThumbnails("_" + size + "." + ext) == "." + ext
  {
    ThumbAtWhole(size, ext);
    ReplaceAllWhole("_" + size + "." + ext, ThumbAt, "." + ext);
  }

  /** A thumbnail suffix right before the extension goes, the extension stays as written. */
  lemma ThumbnailStripped(p: string, size: string, ext: string)
    requires NoChar(p, '_')
    requires size in ThumbSizes && ext in ThumbExtensions
    ensures StripThumbnails(p + ("_" + size + "." + ext)) == p + ("." + ext)
  {
    ThumbSuffixStripped(size, ext);
    StripThumbnailsKeepsPlain(p, "_" + size + "." + ext);
  }

  /** After the protocol step a URL starts with `http`; one that did already is left alone. */
  lemma WithHttpsShape(s: string)
    ensures StartsWith(WithHttps(s), "http")
    ensures StartsWith(s, "http") ==> WithHttps(s) == s
    ensures !StartsWith(s, "http") ==> WithHttps(s) == "https:" + s
  {
    if StartsWith(s, "http") {
      assert s[..4][0] == s[0] == 'h';
      if |s| >= 2 {
        assert s[..2][0] == s[0];
      }
      assert !StartsWith(s, "//");
    } else {
      assert ("https:" + s)[..4] == "http";
    }
  }

  /** After the extension step an image extension always ends the path. */
  lemma WithExtensionShape(s: string)
    ensures HasExtension(WithExtension(s), DomExtensions)
  {
    if !HasExtension(s, DomExtensions) {
      assert s + ".jpg" == s + "." + "jpg";
      ExtensionAppended(s, DomExtensions, "jpg");
    }
  }

  /** Every result starts with `http`. */
  lemma NormalizeImageUrlShape(url: string)
    ensures StartsWith(NormalizeImageUrl(url), "http")
  {
    var c := WithHttps(StripThumbnails(Trim(url)));
    WithHttpsShape(StripThumbnails(Trim(url)));
    var d := WithExtension(c);
    assert d[..4] == c[..4] == "http";
    assert d == "http" + d[4..];
    StripSizesKeepsPlain("http", d[4..]);
    assert (("http" + StripSizes(d[4..]))[..4]) == "http";
  }

  /** `w` digits, an `x` and `h` digits after `p`, at the end: the dimensions end there. */
  lemma DimsAtWhole(p: string, w: string, h: string)
    requires w != [] && AllDigits(w) && h != [] && AllDigits(h)
    ensures DimsAt(p + w + "x" + h, |p|) == Some(|p| + |w| + 1 + |h|)
  {
    var s := p + w + "x" + h;
    var j := |p| + |w|;
    assert s[|p|..j] == w;
    assert s[j] == 'x';
    DigitRunOf(s, |p|, w);
    assert s[j + 1..j + 1 + |h|] == h;
    DigitRunOf(s, j + 1, h);
    DimsAtOf(s, |p|, w, h);
  }

  lemma DimsAtOf(s: string, i: nat, w: string, h: string)
    requires i + |w| + 1 + |h| == |s| && w != [] && h != []
    requires DigitRun(s, i) == w && s[i + |w|] == 'x' && DigitRun(s, i + |w| + 1) == h
    ensures DimsAt(s, i) == Some(|s|)
  {
  }

  /** The size pattern matches the whole of `.ext_WxH`. */
  lemma SizeAtWhole(ext: string, w: string, h: string)
    requires ext in ThumbExtensions
    requires w != [] && AllDigits(w) && h != [] && AllDigits(h)
    ensures SizeAt("." + ext + "_" + w + "x" + h) == Some((3 + |ext| + |w| + |h|, "." + ext))
  {
    var p := "." + ext + "_";
    var s := p + w + "x" + h;
    assert s == "." + ext + "_" + w + "x" + h;
    assert s[1..] == ext + ("_" + w + "x" + h);
    ThumbExtensionFound(ext, "_" + w + "x" + h);
    DimsAtWhole(p, w, h);
    assert s[0] == '.' && s[1 + |ext|] == '_';
    assert s[..1 + |ext|] == "." + ext;
    SizeAtOf(s, ext);
  }

  lemma SizeAtOf(s: string, ext: string)
    requires 2 + |ext| <= |s| && s[0] == '.' && s[1 + |ext|] == '_'
    requires MatchOneOf(s[1..], ThumbExtensions) == Some(ext)
    requires DimsAt(s, 2 + |ext|) == Some(|s|)
    ensures SizeAt(s) == Some((|s|, s[..1 + |ext|]))
  {
  }

  /** The scan turns a lone `.ext_WxH` into `.ext`. */
  lemma SizeSuffixStripped(ext: string, w: string, h: string)
    requires ext in ThumbExtensions
    requires w != [] && AllDigits(w) && h != [] && AllDigits(h)
    ensures StripSizes("." + ext + "_" + w + "x" + h) == "." + ext
  {
    SizeAtWhole(ext, w, h);
    ReplaceAllWhole("." + ext + "_" + w + "x" + h, SizeAt, "." + ext);
  }

  /** A `_WxH` size right after `.jpg`, `.png` or `.webp` goes. */
  lemma SizeStripped(p: string, ext: string, w: string, h: string)
    requires NoChar(p, '.')
    requires ext in ThumbExtensions
    requires w != [] && AllDigits(w) && h != [] && AllDigits(h)
    ensures StripSizes(p + ("." + ext + "_" + w + "x" + h)) == p + ("." + ext)
  {
    SizeSuffixStripped(ext, w, h);
    StripSizesKeepsPlain(p, "." + ext + "_" + w + "x" + h);
  }

  /** Without a `.` there is no extension match anywhere. */
  lemma {:induction false} NoDotNoExtension(w: string, exts: seq<string>, i: nat)
    requires NoChar(w, '.')
    ensures !ExtensionFrom(w, exts, i)
    decreases |w| - i
  {
    if i < |w| {
      NoDotNoExtension(w, exts, i + 1);
    }
  }

  /** Without a `.` the thumbnail pattern cannot match anywhere. */
  lemma {:induction false} StripThumbnailsNoDot(u: string)
    requires NoChar(u, '.')
    ensures StripThumbnails(u) == u
    decreases |u|
  {
    if u != [] {
      assert ThumbAt(u) == None;
      ReplaceAllCopies(u, ThumbAt);
      StripThumbnailsNoDot(u[1..]);
      assert u == [u[0]] + u[1..];
    }
  }

  /** `.jpg` on its own is no size suffix, so the size scan keeps it. */
  lemma JpgKept()
    ensures StripSizes(".jpg") == ".jpg"
  {
    var s := ".jpg";
    assert SizeAt(s) == None;
    ReplaceAllCopies(s, SizeAt);
    assert s[1..] == "jpg" + [];
    StripSizesKeepsPlain("jpg", []);
  }

  /** The size scan keeps `.jpg` after text with no `.`. */
  lemma JpgKeptAfter(p: string)
    requires NoChar(p, '.')
    ensures StripSizes(p + ".jpg") == p + ".jpg"
  {
    StripSizesKeepsPlain(p, ".jpg");
    JpgKept();
  }

  /** The rewriting, one step at a time. */
  lemma Steps(url: string, a: string, b: string, c: string, d: string)
    requires StripThumbnails(Trim(url)) == a && WithHttps(a) == b
    requires WithExtension(b) == c && StripSizes(c) == d
    ensures NormalizeImageUrl(url) == d
  {
  }

  /** The thumbnail scan keeps a trimmed name with no `.`. */
  lemma BareNameFirstStep(u: string)
    requires NoChar(u, '.') && Trim(u) == u
    ensures StripThumbnails(Trim(u)) == u
  {
    StripThumbnailsNoDot(u);
  }

  /** An `https:` name with no `.` gets `.jpg`. */
  lemma NoDotGetsJpg(c: string)
    requires NoChar(c, '.')
    ensures WithExtension(c) == c + ".jpg"
  {
    LowerNoDot(c);
    NoDotNoExtension(Lower(c), DomExtensions, 0);
  }

  /** The protocol and extension stages over a bare name with no `.`. */
  lemma BareNameStages(u: string)
    requires NoChar(u, '.') && !StartsWith(u, "http")
    ensures WithHttps(u) == "https:" + u
    ensures WithExtension("https:" + u) == ("https:" + u) + ".jpg"
  {
    WithHttpsShape(u);
    NoCharConcat("https:", u, '.');
    NoDotGetsJpg("https:" + u);
  }

  /** A bare name with no `.` gets `https:` in front and `.jpg` behind, and nothing else changes. */
  lemma BareNameRewritten(u: string)
    requires NoChar(u, '.')
    requires Trim(u) == u && !StartsWith(u, "http")
    ensures NormalizeImageUrl(u) == ("https:" + u) + ".jpg"
  {
    var c := "https:" + u;
    assert StripThumbnails(Trim(u)) == u && WithHttps(u) == c
      && WithExtension(c) == c + ".jpg" && StripSizes(c + ".jpg") == c + ".jpg" by {
      BareNameFirstStep(u);
      BareNameStages(u);
      NoCharConcat("https:", u, '.');
      JpgKeptAfter(c);
    }
    Steps(u, u, c, c + ".jpg", c + ".jpg");
  }

  /** The protocol and extension steps leave an `https:` URL ending in `.jpg` alone. */
  lemma HttpsJpgKept(p: string)
    requires StartsWith(p, "http")
    ensures WithHttps(p + ".jpg") == p + ".jpg"
    ensures WithExtension(p + ".jpg") == p + ".jpg"
  {
    var t := p + ".jpg";
    assert t[..4] == p[..4];
    WithHttpsShape(t);
    assert t == p + "." + "jpg";
    ExtensionAppended(p, DomExtensions, "jpg");
  }

  /** The thumbnail scan turns a trimmed `p_sum.jpg` into `p.jpg`. */
  lemma SumFirstStep(p: string)
    requires NoChar(p, '_') && p != [] && !IsSpace(p[0])
    ensures StripThumbnails(Trim(p + "_sum.jpg")) == p + ".jpg"
  {
    var v := p + "_sum.jpg";
    assert v[0] == p[0] && v[|v| - 1] == 'g';
    TrimOfTrimmed(v);
    assert "_sum.jpg" == "_" + "sum" + "." + "jpg";
    ThumbnailStripped(p, "sum", "jpg");
    assert "." + "jpg" == ".jpg";
  }

  /** `_sum.jpg` at the end of an `https:` URL becomes `.jpg`. */
  lemma SumSuffixDropped(x: string)
    requires NoChar(x, '.') && NoChar(x, '_')
    ensures NormalizeImageUrl(("https:" + x) + "_sum.jpg") == ("https:" + x) + ".jpg"
  {
    var p := "https:" + x;
    NoCharConcat("https:", x, '.');
    NoCharConcat("https:", x, '_');
    assert p[0] == 'h' && p[..4] == "http";
    SumFirstStep(p);
    HttpsJpgKept(p);
    JpgKeptAfter(p);
    var t := p + ".jpg";
    Steps(p + "_sum.jpg", t, t, t, t);
  }

  /** `x_sum` has no surrounding white space. */
  lemma SumNameTrimmed(x: string)
    requires x == [] || !IsSpace(x[0])
    ensures Trim(x + "_sum") == x + "_sum"
  {
    var u := x + "_sum";
    assert u[|u| - 1] == 'm';
    if x == [] {
      assert u[0] == '_';
    } else {
      assert u[0] == x[0];
    }
    TrimOfTrimmed(u);
  }

  /** `x_sum` is a bare name with no `.` that does not start with `http`. */
  lemma SumNameBare(x: string)
    requires NoChar(x, '.') && NoChar(x, '_')
    requires x == [] || (x[0] != 'h' && !IsSpace(x[0]))
    ensures NoChar(x + "_sum", '.') && !StartsWith(x + "_sum", "http")
  {
    var u := x + "_sum";
    assert u[0] != 'h' by {
      if x == [] {
        assert u[0] == '_';
      } else {
        assert u[0] == x[0];
      }
    }
    if |u| >= 4 {
      assert u[..4][0] == u[0];
    }
    NoCharConcat(x, "_sum", '.');
  }

  lemma SumNameRegrouped(x: string)
    ensures ("https:" + (x + "_sum")) + ".jpg" == ("https:" + x) + "_sum.jpg"
  {
  }

  /** The first pass over `x_sum`. */
  lemma SumNameRewritten(x: string)
    requires NoChar(x, '.') && NoChar(x, '_')
    requires x == [] || (x[0] != 'h' && !IsSpace(x[0]))
    ensures NormalizeImageUrl(x + "_sum") == ("https:" + x) + "_sum.jpg"
  {
    SumNameBare(x);
    SumNameTrimmed(x);
    BareNameRewritten(x + "_sum");
    SumNameRegrouped(x);
  }

  /** A result that a second pass changes: the rewriting is not idempotent there. */
  lemma SecondPassDiffers(a: string, b: string, c: string)
    requires NormalizeImageUrl(a) == b && NormalizeImageUrl(b) == c && b != c
    ensures NormalizeImageUrl(NormalizeImageUrl(a)) != NormalizeImageUrl(a)
  {
  }

  /**
   * The rewriting is not idempotent: `x_sum` (no extension) becomes
   * `https:x_sum.jpg`, and a second pass strips `_sum.jpg` from that.
   */
  lemma NotIdempotent(x: string)
    requires NoChar(x, '.') && NoChar(x, '_')
    requires x == [] || (x[0] != 'h' && !IsSpace(x[0]))
    ensures NormalizeImageUrl(NormalizeImageUrl(x + "_sum")) != NormalizeImageUrl(x + "_sum")
  {
    var p := "https:" + x;
    SumNameRewritten(x);
    SumSuffixDropped(x);
    assert |p + ".jpg"| != |p + "_sum.jpg"|;
    SecondPassDiffers(x + "_sum", p + "_sum.jpg", p + ".jpg");
  }

  /** The instance `x_sum`. */
  lemma NotIdempotentExample()
    ensures NormalizeImageUrl(NormalizeImageUrl("x_sum")) != NormalizeImageUrl("x_sum")
  {
    assert "x_sum" == "x" + "_sum";
    NotIdempotent("x");
  }
}
