/**
 * The image step of the DOM extractor: three passes over `<img>` elements
 * (images on the 1688 CDN, images inside gallery containers, lazily loaded
 * images) add the normalised URL of every accepted source to one
 * insertion-ordered set, which becomes the image list.
 */
module DomImages {
  import opened Wrappers
  import opened Text
  import opened Js
  import opened Seqs
  import DomImageUrl

  /**
   * An `<img>` element: the `src` property, which is "" without a `src`
   * attribute, and the `data-src` and `data-lazy-src` attributes, None when
   * absent.
   */
  datatype Img = Img(src: string, dataSrc: Option<string>, dataLazySrc: Option<string>)

  const CdnSelector := "img[src*=\"cbu\"], img[src*=\"1688\"]"
  const GallerySelectors: seq<string> := [
    ".offer-image img",
    "[class*=\"gallery\"] img",
    "[class*=\"preview\"] img",
    "[class*=\"image-list\"] img",
    "[class*=\"thumb\"] img"]
  const LazySelector := "img[data-src]"

  const NoImagesMessage := "Could not find product images"

  // ---------------------------------------------------------------------
  // which source an element contributes

  /** A present attribute as a JavaScript string, an absent one as null. */
  function Attr(a: Option<string>): Value {
    if a.None? then Some(JNull) else Some(JStr(a.value))
  }

  /** `img.src || img.getAttribute('data-src') || img.getAttribute('data-lazy-src')`, None when falsy. */
  function SrcOf(img: Img): Option<string> {
    if img.src != [] then Some(img.src)
    else if img.dataSrc.Some? && img.dataSrc.value != [] then img.dataSrc
    else if img.dataLazySrc.Some? && img.dataLazySrc.value != [] then img.dataLazySrc
    else None
  }

  /** The source is the `||` chain of the three reads: found exactly when the chain is truthy, and then its string. */
  lemma SrcOfIsOrChain(img: Img)
    ensures var v := OrChain([Some(JStr(img.src)), Attr(img.dataSrc), Attr(img.dataLazySrc)]);
      (SrcOf(img).Some? <==> Truthy(v)) && (SrcOf(img).Some? ==> v == Some(JStr(SrcOf(img).value)))
  {
    var vs := [Some(JStr(img.src)), Attr(img.dataSrc), Attr(img.dataLazySrc)];
    assert vs[1..] == [Attr(img.dataSrc), Attr(img.dataLazySrc)];
    assert vs[1..][1..] == [Attr(img.dataLazySrc)];
  }

  /** The CDN pass: the source, when it contains `cbu`. */
  function CdnPick(img: Img): (r: Option<string>)
    ensures r.Some? <==> SrcOf(img).Some? && Contains(SrcOf(img).value, "cbu")
    ensures r.Some? ==> r == SrcOf(img)
  {
    match SrcOf(img)
    case Some(s) => if Contains(s, "cbu") then Some(s) else None
    case None => None
  }

  /** The gallery passes: any source. */
  function GalleryPick(img: Img): Option<string> {
    SrcOf(img)
  }

  /** The lazy pass: `data-src` alone, when it contains `cbu` or `1688`. */
  function LazyPick(img: Img): (r: Option<string>)
    ensures r.Some? <==> img.dataSrc.Some? && img.dataSrc.value != []
                         && (Contains(img.dataSrc.value, "cbu") || Contains(img.dataSrc.value, "1688"))
    ensures r.Some? ==> r == img.dataSrc
  {
    match img.dataSrc
    case Some(s) => if s != [] && (Contains(s, "cbu") || Contains(s, "1688")) then Some(s) else None
    case None => None
  }

  /** The sources one pass accepts, in element order. */
  function Accepted(imgs: seq<Img>, pick: Img -> Option<string>): (r: seq<string>)
    ensures forall k :: 0 <= k < |r| ==> exists j :: 0 <= j < |imgs| && pick(imgs[j]) == Some(r[k])
    decreases |imgs|
  {
    if imgs == [] then []
    else
      var n := |imgs| - 1;
      var r := Accepted(imgs[..n], pick) + (if pick(imgs[n]).Some? then [pick(imgs[n]).value] else []);
      assert forall j :: 0 <= j < n ==> imgs[..n][j] == imgs[j];
      r
  }

  // ---------------------------------------------------------------------
  // the insertion-ordered set

  predicate Distinct(s: seq<string>) {
    forall i, j :: 0 <= i < j < |s| ==> s[i] != s[j]
  }

  /** `set.add(u)`: a new value goes at the end, a present one changes nothing. */
  function AddUrl(urls: seq<string>, u: string): seq<string> {
    if u in urls then urls else urls + [u]
  }

  /** Adding the normalised URL of every source, in order. */
  function AddAll(urls: seq<string>, srcs: seq<string>, norm: string -> string): seq<string>
    decreases |srcs|
  {
    if srcs == [] then urls
    else AddUrl(AddAll(urls, srcs[..|srcs| - 1], norm), norm(srcs[|srcs| - 1]))
  }

  function NormalizedAll(srcs: seq<string>, norm: string -> string): seq<string> {
    seq(|srcs|, k requires 0 <= k < |srcs| => norm(srcs[k]))
  }

  /** `filter(Boolean)` on strings. */
  function IsTruthyString(s: string): bool {
    s != []
  }

  // ---------------------------------------------------------------------
  // the image step

  /** The gallery passes in selector order. */
  function GallerySources(imagesOf: string -> seq<Img>, sels: seq<string>): seq<string>
    decreases |sels|
  {
    if sels == [] then []
    else GallerySources(imagesOf, sels[..|sels| - 1]) + Accepted(imagesOf(sels[|sels| - 1]), GalleryPick)
  }

  /** Every accepted source of the three passes, in the order they are added. */
  function ImageSources(imagesOf: string -> seq<Img>): seq<string> {
    Accepted(imagesOf(CdnSelector), CdnPick)
    + GallerySources(imagesOf, GallerySelectors)
    + Accepted(imagesOf(LazySelector), LazyPick)
  }

  /** `extractImagesFromDOM()` over the elements each selector finds. */
  function ImagesFromDom(imagesOf: string -> seq<Img>): Outcome<seq<string>> {
    var images := Filter(AddAll([], ImageSources(imagesOf), DomImageUrl.NormalizeImageUrl), IsTruthyString);
    if images == [] then Err(Thrown(NoImagesMessage)) else Ok(images)
  }

  /** One `forEach` pass: each accepted source is normalised and added. */
  method AddImages(urls0: seq<string>, imgs: seq<Img>, pick: Img -> Option<string>, norm: string -> string)
    returns (urls: seq<string>)
    ensures urls == AddAll(urls0, Accepted(imgs, pick), norm)
  {
    urls := urls0;
    for k := 0 to |imgs|
      invariant urls == AddAll(urls0, Accepted(imgs[..k], pick), norm)
    {
      assert imgs[..k + 1][..k] == imgs[..k] && imgs[..k + 1][k] == imgs[k];
      var src := pick(imgs[k]);
      if src.Some? {
        assert Accepted(imgs[..k + 1], pick) == Accepted(imgs[..k], pick) + [src.value];
        AddAllSnoc(urls0, Accepted(imgs[..k], pick), src.value, norm);
        var u := norm(src.value);
        if u !in urls {
          urls := urls + [u];
        }
      } else {
        var a := Accepted(imgs[..k], pick);
        assert Accepted(imgs[..k + 1], pick) == a + [];
        assert a + [] == a;
      }
    }
    assert imgs[..|imgs|] == imgs;
  }

  /** The `gallerySelectors.forEach` pass, one selector after the other. */
  method AddGallery(urls0: seq<string>, imagesOf: string -> seq<Img>, sels: seq<string>, norm: string -> string)
    returns (urls: seq<string>)
    ensures urls == AddAll(urls0, GallerySources(imagesOf, sels), norm)
  {
    urls := urls0;
    for g := 0 to |sels|
      invariant urls == AddAll(urls0, GallerySources(imagesOf, sels[..g]), norm)
    {
      var before := GallerySources(imagesOf, sels[..g]);
      var added := Accepted(imagesOf(sels[g]), GalleryPick);
      assert sels[..g + 1][..g] == sels[..g];
      urls := AddImages(urls, imagesOf(sels[g]), GalleryPick, norm);
      AddAllAppend(urls0, before, added, norm);
    }
    assert sels[..|sels|] == sels;
  }

  method ExtractImagesFromDom(imagesOf: string -> seq<Img>) returns (r: Outcome<seq<string>>)
    ensures r == ImagesFromDom(imagesOf)
  {
    var norm := DomImageUrl.NormalizeImageUrl;
    var cdn := Accepted(imagesOf(CdnSelector), CdnPick);
    var gallery := GallerySources(imagesOf, GallerySelectors);
    var lazy := Accepted(imagesOf(LazySelector), LazyPick);
    var urls := AddImages([], imagesOf(CdnSelector), CdnPick, norm);
    urls := AddGallery(urls, imagesOf, GallerySelectors, norm);
    AddAllAppend([], cdn, gallery, norm);
    urls := AddImages(urls, imagesOf(LazySelector), LazyPick, norm);
    AddAllAppend([], cdn + gallery, lazy, norm);
    var images := Filter(urls, IsTruthyString);
    if images == [] {
      return Err(Thrown(NoImagesMessage));
    }
    return Ok(images);
  }

  // ---------------------------------------------------------------------
  // properties of the set

  lemma AddAllSnoc(urls: seq<string>, srcs: seq<string>, s: string, norm: string -> string)
    ensures AddAll(urls, srcs + [s], norm) == AddUrl(AddAll(urls, srcs, norm), norm(s))
  {
    assert (srcs + [s])[..|srcs|] == srcs;
  }

  /** Adding two runs of sources is adding their concatenation. */
  lemma {:induction false} AddAllAppend(urls: seq<string>, a: seq<string>, b: seq<string>, norm: string -> string)
    ensures AddAll(urls, a + b, norm) == AddAll(AddAll(urls, a, norm), b, norm)
    decreases |b|
  {
    if b == [] {
      assert a + b == a;
    } else {
      var n := |b| - 1;
      assert (a + b)[..|a + b| - 1] == a + b[..n];
      AddAllAppend(urls, a, b[..n], norm);
    }
  }

  /** The set never holds a value twice. */
  lemma {:induction false} AddAllDistinct(urls: seq<string>, srcs: seq<string>, norm: string -> string)
    requires Distinct(urls)
    ensures Distinct(AddAll(urls, srcs, norm))
    decreases |srcs|
  {
    if srcs != [] {
      AddAllDistinct(urls, srcs[..|srcs| - 1], norm);
    }
  }

  /** What was in the set stays, in front and in its order. */
  lemma {:induction false} AddAllPrefix(urls: seq<string>, srcs: seq<string>, norm: string -> string)
    ensures urls <= AddAll(urls, srcs, norm)
    decreases |srcs|
  {
    if srcs != [] {
      AddAllPrefix(urls, srcs[..|srcs| - 1], norm);
    }
  }

  /** A value is in the set exactly when it was there or is the normalised URL of a source. */
  lemma {:induction false} AddAllMembers(urls: seq<string>, srcs: seq<string>, norm: string -> string)
    ensures forall u :: u in AddAll(urls, srcs, norm) <==> u in urls || u in NormalizedAll(srcs, norm)
    decreases |srcs|
  {
    if srcs != [] {
      var n := |srcs| - 1;
      AddAllMembers(urls, srcs[..n], norm);
      assert NormalizedAll(srcs, norm) == NormalizedAll(srcs[..n], norm) + [norm(srcs[n])];
    }
  }

  /** Every value is an `http` URL when the normaliser only makes those. */
  lemma {:induction false} AddAllHttp(urls: seq<string>, srcs: seq<string>, norm: string -> string)
    requires forall k :: 0 <= k < |urls| ==> StartsWith(urls[k], "http")
    requires forall k :: 0 <= k < |srcs| ==> StartsWith(norm(srcs[k]), "http")
    ensures forall k :: 0 <= k < |AddAll(urls, srcs, norm)| ==> StartsWith(AddAll(urls, srcs, norm)[k], "http")
    decreases |srcs|
  {
    if srcs != [] {
      AddAllHttp(urls, srcs[..|srcs| - 1], norm);
    }
  }

  /** The first source's URL opens the list. */
  lemma FirstSourceFirst(srcs: seq<string>, norm: string -> string)
    requires srcs != []
    ensures AddAll([], srcs, norm) != [] && AddAll([], srcs, norm)[0] == norm(srcs[0])
  {
    AddAllAppend([], [srcs[0]], srcs[1..], norm);
    assert [srcs[0]] + srcs[1..] == srcs;
    assert AddAll([], [srcs[0]], norm) == [norm(srcs[0])] by {
      assert [srcs[0]][..0] == [];
    }
    AddAllPrefix([norm(srcs[0])], srcs[1..], norm);
  }

  // ---------------------------------------------------------------------
  // properties of the image step

  lemma AllHttp(srcs: seq<string>)
    ensures forall k :: 0 <= k < |srcs| ==> StartsWith(DomImageUrl.NormalizeImageUrl(srcs[k]), "http")
  {
    forall k | 0 <= k < |srcs|
      ensures StartsWith(DomImageUrl.NormalizeImageUrl(srcs[k]), "http")
    {
      DomImageUrl.NormalizeImageUrlShape(srcs[k]);
    }
  }

  /**
   * The image step fails exactly when no pass accepts a source; otherwise
   * the list holds each normalised URL of an accepted source once, only
   * those, every one an `http` URL, the first accepted source's URL first.
   */
  lemma ImagesFromDomShape(imagesOf: string -> seq<Img>)
    ensures var srcs := ImageSources(imagesOf);
      var norm := DomImageUrl.NormalizeImageUrl;
      var r := ImagesFromDom(imagesOf);
      && (r.Err? <==> srcs == [])
      && (r.Err? ==> r.error == Thrown(NoImagesMessage))
      && (r.Ok? ==> Distinct(r.value))
      && (r.Ok? ==> forall u :: u in r.value <==> u in NormalizedAll(srcs, norm))
      && (r.Ok? ==> forall k :: 0 <= k < |r.value| ==> StartsWith(r.value[k], "http"))
      && (r.Ok? ==> r.value[0] == norm(srcs[0]))
  {
    var srcs := ImageSources(imagesOf);
    var norm := DomImageUrl.NormalizeImageUrl;
    var urls := AddAll([], srcs, norm);
    AllHttp(srcs);
    AddAllHttp([], srcs, norm);
    forall k | 0 <= k < |urls|
      ensures IsTruthyString(urls[k])
    {
      assert |urls[k]| >= 4;
    }
    FilterAll(urls, IsTruthyString);
    AddAllDistinct([], srcs, norm);
    AddAllMembers([], srcs, norm);
    if srcs != [] {
      FirstSourceFirst(srcs, norm);
    }
  }

  /** The sources of the first `n` gallery selectors open those of all of them. */
  lemma {:induction false} GalleryPrefix(imagesOf: string -> seq<Img>, sels: seq<string>, n: nat)
    requires n <= |sels|
    ensures GallerySources(imagesOf, sels[..n]) <= GallerySources(imagesOf, sels)
    decreases |sels| - n
  {
    if n < |sels| {
      var m := |sels| - 1;
      assert sels[..m][..n] == sels[..n];
      GalleryPrefix(imagesOf, sels[..m], n);
    } else {
      assert sels[..n] == sels;
    }
  }

  /** A gallery image with any source is taken, whatever its URL. */
  lemma GalleryTakesAnySource(imagesOf: string -> seq<Img>, img: Img)
    requires SrcOf(img).Some?
    requires imagesOf(GallerySelectors[0]) == [img]
    ensures SrcOf(img).value in ImageSources(imagesOf)
  {
    var g := GallerySelectors;
    assert g[..1][..0] == [] && g[..1][0] == g[0];
    assert Accepted([img], GalleryPick) == [SrcOf(img).value] by {
      assert [img][..0] == [];
    }
    assert GallerySources(imagesOf, g[..1]) == [SrcOf(img).value];
    GalleryPrefix(imagesOf, g, 1);
    var cdn := Accepted(imagesOf(CdnSelector), CdnPick);
    assert ImageSources(imagesOf)[|cdn|] == SrcOf(img).value;
  }
}
