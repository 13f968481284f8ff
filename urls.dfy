/**
 * The offer id in a 1688 product URL, as the pattern `/offer[\/](\d+)/`
 * that the normaliser, the DOM extractor and the page-info helper all use:
 * the leftmost `offer/` followed by a digit, and the whole digit run there.
 */
module Urls {
  import opened Wrappers
  import opened Text

  /** The maximal run of digits starting at `i` (greedy `\d*`). */
  function DigitRun(s: string, i: nat): (r: string)
    requires i <= |s|
    ensures AllDigits(r)
    ensures i + |r| <= |s| && r == s[i..i + |r|]
    ensures i + |r| < |s| ==> !IsDigit(s[i + |r|])
    decreases |s| - i
  {
    if i < |s| && IsDigit(s[i]) then [s[i]] + DigitRun(s, i + 1) else []
  }

  /** The pattern matches at `i`: `offer/` and then at least one digit. */
  predicate OfferMatchAt(url: string, i: nat) {
    OccursAt(url, "offer/", i) && i + 6 < |url| && IsDigit(url[i + 6])
  }

  /** The leftmost match at or after `i`. */
  function OfferMatchFrom(url: string, i: nat): (r: Option<nat>)
    ensures r.Some? ==> i <= r.value && OfferMatchAt(url, r.value)
    ensures r.Some? ==> forall k :: i <= k < r.value ==> !OfferMatchAt(url, k)
    ensures r.None? ==> forall k: nat :: i <= k ==> !OfferMatchAt(url, k)
    decreases |url| - i
  {
    if i + 6 >= |url| then None
    else if OfferMatchAt(url, i) then Some(i)
    else OfferMatchFrom(url, i + 1)
  }

  /** `url.match(/offer[\/](\d+)/)?.[1]`. */
  function OfferId(url: string): Option<string> {
    match OfferMatchFrom(url, 0)
    case None => None
    case Some(i) => Some(DigitRun(url, i + 6))
  }

  /**
   * A found id is a non-empty digit run right after the leftmost `offer/`
   * that a digit follows, and it extends as far as the digits do; there is
   * no id exactly when no `offer/` is followed by a digit.
   */
  lemma OfferIdShape(url: string)
    ensures OfferId(url).Some? ==> exists i: nat ::
      OfferMatchAt(url, i) && (forall k :: 0 <= k < i ==> !OfferMatchAt(url, k))
      && OfferId(url).value == DigitRun(url, i + 6)
    ensures OfferId(url).Some? ==> OfferId(url).value != [] && AllDigits(OfferId(url).value)
    ensures OfferId(url).None? <==> forall i: nat :: !OfferMatchAt(url, i)
  {
    var m := OfferMatchFrom(url, 0);
    if m.Some? {
      var i := m.value;
      assert IsDigit(url[i + 6]);
      assert DigitRun(url, i + 6) == [url[i + 6]] + DigitRun(url, i + 7);
    }
  }

  /** The id of a path `offer/<digits>.html` behind a prefix with no `offer/` in it. */
  lemma OfferIdOfPath(prefix: string, id: string)
    requires id != [] && AllDigits(id)
    requires forall i: nat :: i < |prefix| ==> !OccursAt(prefix + "offer", "offer", i)
    ensures OfferId(prefix + "offer/" + id + ".html") == Some(id)
  {
    var url := prefix + "offer/" + id + ".html";
    var p := |prefix|;
    forall k: nat | k < p
      ensures !OfferMatchAt(url, k)
    {
      NoMatchInPrefix(prefix, "/" + id + ".html", k);
      assert url == (prefix + "offer") + ("/" + id + ".html");
    }
    assert url[p..p + 6] == "offer/";
    assert url[p + 6] == id[0];
    OfferFromFirst(url, 0, p);
    DigitRunOf(url, p + 6, id);
  }

  /** A match before the end of `prefix` would put `offer` inside `prefix + "offer"` there. */
  lemma NoMatchInPrefix(prefix: string, rest: string, k: nat)
    requires k < |prefix| && !OccursAt(prefix + "offer", "offer", k)
    ensures !OfferMatchAt((prefix + "offer") + rest, k)
  {
    var u := (prefix + "offer") + rest;
    if k + 6 <= |u| {
      assert (prefix + "offer")[k..k + 5] == u[k..k + 5] == u[k..k + 6][..5];
    }
  }

  /** The leftmost match is the first matching index when none comes before it. */
  lemma {:induction false} OfferFromFirst(url: string, i: nat, p: nat)
    requires i <= p && OfferMatchAt(url, p)
    requires forall k: nat :: i <= k < p ==> !OfferMatchAt(url, k)
    ensures OfferMatchFrom(url, i) == Some(p)
    decreases p - i
  {
    if i < p {
      OfferFromFirst(url, i + 1, p);
    }
  }

  /** The digit run at `i` is `d` when `d` sits there and a non-digit follows. */
  lemma {:induction false} DigitRunOf(s: string, i: nat, d: string)
    requires AllDigits(d) && i + |d| <= |s| && s[i..i + |d|] == d
    requires i + |d| < |s| ==> !IsDigit(s[i + |d|])
    ensures DigitRun(s, i) == d
    decreases |d|
  {
    if d != [] {
      assert s[i] == d[0];
      assert s[i + 1..i + |d|] == d[1..];
      DigitRunOf(s, i + 1, d[1..]);
    }
  }

  /** The canonical product page carries its own id. */
  lemma DetailPageOfferId(id: string)
    requires id != [] && AllDigits(id)
    ensures OfferId("https://detail.1688.com/offer/" + id + ".html") == Some(id)
  {
    var prefix := "https://detail.1688.com/";
    forall i: nat | i < |prefix|
      ensures !OccursAt(prefix + "offer", "offer", i)
    {
      var s := prefix + "offer";
      if i + 5 <= |s| {
        assert s[i..i + 5][0] == s[i] && s[i..i + 5][1] == s[i + 1];
      }
    }
    assert prefix + "offer/" + id + ".html" == "https://detail.1688.com/offer/" + id + ".html";
    OfferIdOfPath(prefix, id);
  }

  // ---------------------------------------------------------------------
  // image extensions: `/\.(ext1|ext2|...)($|\?)/i`

  /** At `i` of the lower-cased `w`: a dot, one of `exts`, then the end or `?`. */
  predicate ExtensionAt(w: string, exts: seq<string>, i: nat) {
    i < |w| && w[i] == '.'
    && exists e :: e in exts && OccursAt(w, e, i + 1) && (i + 1 + |e| == |w| || w[i + 1 + |e|] == '?')
  }

  predicate ExtensionFrom(w: string, exts: seq<string>, i: nat)
    decreases |w| - i
  {
    i < |w| && (ExtensionAt(w, exts, i) || ExtensionFrom(w, exts, i + 1))
  }

  /** The URL matches the extension test, letters compared without case. */
  predicate HasExtension(url: string, exts: seq<string>) {
    ExtensionFrom(Lower(url), exts, 0)
  }

  lemma {:induction false} ExtensionFound(w: string, exts: seq<string>, i: nat, j: nat)
    requires i <= j && ExtensionAt(w, exts, j)
    ensures ExtensionFrom(w, exts, i)
    decreases j - i
  {
    if i < j {
      ExtensionFound(w, exts, i + 1, j);
    }
  }

  /** A URL ending in one of the (lower-case) extensions passes the test. */
  lemma ExtensionAppended(url: string, exts: seq<string>, e: string)
    requires e in exts && Lower(e) == e
    ensures HasExtension(url + "." + e, exts)
  {
    LowerAppend(url + ".", e);
    LowerAppend(url, ".");
    var w := Lower(url + "." + e);
    assert w == Lower(url) + "." + e;
    assert w[|url|] == '.';
    assert w[|url| + 1..|url| + 1 + |e|] == e;
    assert ExtensionAt(w, exts, |url|);
    ExtensionFound(w, exts, 0, |url|);
  }

  /** An extension match survives putting text in front. */
  lemma ExtensionShift(p: string, w: string, exts: seq<string>, i: nat)
    requires ExtensionAt(w, exts, i)
    ensures ExtensionAt(p + w, exts, |p| + i)
  {
    var e :| e in exts && OccursAt(w, e, i + 1) && (i + 1 + |e| == |w| || w[i + 1 + |e|] == '?');
    var v := p + w;
    assert v[|p| + i] == w[i];
    assert v[|p| + i + 1..|p| + i + 1 + |e|] == w[i + 1..i + 1 + |e|];
    if i + 1 + |e| < |w| {
      assert v[|p| + i + 1 + |e|] == w[i + 1 + |e|];
    }
  }

  lemma {:induction false} ExtensionWitness(w: string, exts: seq<string>, i: nat)
    requires ExtensionFrom(w, exts, i)
    ensures exists j: nat :: i <= j && ExtensionAt(w, exts, j)
    decreases |w| - i
  {
    if !ExtensionAt(w, exts, i) {
      ExtensionWitness(w, exts, i + 1);
    }
  }

  /** An extension match anywhere survives putting text in front. */
  lemma ExtensionFromPrefixed(q: string, w: string, exts: seq<string>)
    requires ExtensionFrom(w, exts, 0)
    ensures ExtensionFrom(q + w, exts, 0)
  {
    ExtensionWitness(w, exts, 0);
    var j: nat :| ExtensionAt(w, exts, j);
    ExtensionShift(q, w, exts, j);
    ExtensionFound(q + w, exts, 0, |q| + j);
  }

  /** A URL that passes the extension test still passes it with a prefix in front. */
  lemma ExtensionPrefixed(p: string, url: string, exts: seq<string>)
    requires HasExtension(url, exts)
    ensures HasExtension(p + url, exts)
  {
    ExtensionFromPrefixed(Lower(p), Lower(url), exts);
    LowerAppend(p, url);
  }
}
