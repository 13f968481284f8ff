/** Searching and filtering sequences. */
module Seqs {
  import opened Wrappers

  /** The index of the first element satisfying `p`, as `Array.prototype.findIndex`. */
  function FirstIndex<T>(s: seq<T>, p: T -> bool): (r: Option<nat>)
    ensures r.Some? ==> r.value < |s| && p(s[r.value])
    ensures r.Some? ==> forall k :: 0 <= k < r.value ==> !p(s[k])
    ensures r.None? ==> forall k :: 0 <= k < |s| ==> !p(s[k])
  {
    if s == [] then None
    else if p(s[0]) then Some(0)
    else match FirstIndex(s[1..], p)
      case None => None
      case Some(k) => Some(k + 1)
  }

  /** An index where `p` holds after a stretch where it does not is the first one. */
  lemma FirstIndexAt<T>(s: seq<T>, p: T -> bool, k: nat)
    requires k < |s| && p(s[k])
    requires forall j :: 0 <= j < k ==> !p(s[j])
    ensures FirstIndex(s, p) == Some(k)
  {
  }

  /** `s.filter(p)`. */
  function Filter<T>(s: seq<T>, p: T -> bool): (r: seq<T>)
    ensures |r| <= |s|
    ensures forall k :: 0 <= k < |r| ==> p(r[k]) && r[k] in s
    ensures forall k :: 0 <= k < |s| && p(s[k]) ==> s[k] in r
  {
    if s == [] then []
    else if p(s[0]) then [s[0]] + Filter(s[1..], p)
    else Filter(s[1..], p)
  }

  lemma FilterAppend<T>(a: seq<T>, b: seq<T>, p: T -> bool)
    ensures Filter(a + b, p) == Filter(a, p) + Filter(b, p)
  {
    if a == [] {
      assert a + b == b;
    } else {
      assert (a + b)[1..] == a[1..] + b;
      FilterAppend(a[1..], b, p);
    }
  }

  lemma FilterAll<T>(s: seq<T>, p: T -> bool)
    requires forall k :: 0 <= k < |s| ==> p(s[k])
    ensures Filter(s, p) == s
  {
    if s != [] {
      FilterAll(s[1..], p);
    }
  }

  /**
   * Each element in order yields zero or more results, or fails; the first
   * failure ends the walk. This is the shape of a `forEach` that pushes
   * into a local array and may throw part-way.
   */
  function Collect<A, B, E>(xs: seq<A>, f: A -> Result<seq<B>, E>): (r: Result<seq<B>, E>)
    decreases |xs|
  {
    if xs == [] then Ok([])
    else match f(xs[0])
      case Err(e) => Err(e)
      case Ok(b) =>
        match Collect(xs[1..], f)
        case Err(e) => Err(e)
        case Ok(rest) => Ok(b + rest)
  }

  /** `acc` followed by what `r` yields, or `r`'s failure. */
  function Prepend<B, E>(acc: seq<B>, r: Result<seq<B>, E>): Result<seq<B>, E> {
    match r
    case Err(e) => Err(e)
    case Ok(rest) => Ok(acc + rest)
  }

  /** One more element of a walk already part-way through. */
  lemma CollectStep<A, B, E>(xs: seq<A>, k: nat, f: A -> Result<seq<B>, E>, acc: seq<B>, b: seq<B>)
    requires k < |xs| && f(xs[k]) == Ok(b)
    ensures Prepend(acc, Collect(xs[k..], f)) == Prepend(acc + b, Collect(xs[k + 1..], f))
  {
    assert xs[k..][1..] == xs[k + 1..];
    match Collect(xs[k + 1..], f)
    case Err(e) =>
    case Ok(rest) =>
      assert acc + (b + rest) == (acc + b) + rest;
  }

  /** The walk succeeds exactly when every element succeeds. */
  lemma {:induction false} CollectOk<A, B, E>(xs: seq<A>, f: A -> Result<seq<B>, E>)
    ensures Collect(xs, f).Ok? <==> forall k :: 0 <= k < |xs| ==> f(xs[k]).Ok?
    decreases |xs|
  {
    if xs != [] {
      CollectOk(xs[1..], f);
      assert forall k :: 1 <= k < |xs| ==> xs[1..][k - 1] == xs[k];
    }
  }

  /** A successful walk fails at no element. */
  lemma CollectOkEach<A, B, E>(xs: seq<A>, f: A -> Result<seq<B>, E>, k: nat)
    requires Collect(xs, f).Ok? && k < |xs|
    ensures f(xs[k]).Ok?
  {
    CollectOk(xs, f);
  }

  /** Every result of a successful walk came from some element. */
  lemma {:induction false} CollectFrom<A, B, E>(xs: seq<A>, f: A -> Result<seq<B>, E>, j: nat)
    requires Collect(xs, f).Ok? && j < |Collect(xs, f).value|
    ensures exists k, i ::
              0 <= k < |xs| && f(xs[k]).Ok? && 0 <= i < |f(xs[k]).value| && f(xs[k]).value[i] == Collect(xs, f).value[j]
    decreases |xs|
  {
    var b := f(xs[0]).value;
    if j < |b| {
      assert f(xs[0]).value[j] == Collect(xs, f).value[j];
    } else {
      CollectFrom(xs[1..], f, j - |b|);
      var k, i :| 0 <= k < |xs[1..]| && f(xs[1..][k]).Ok? && 0 <= i < |f(xs[1..][k]).value|
        && f(xs[1..][k]).value[i] == Collect(xs[1..], f).value[j - |b|];
      assert xs[1..][k] == xs[k + 1];
    }
  }

  /** When every element yields exactly one result, a successful walk has one result per element. */
  lemma {:induction false} CollectOnePerElement<A, B, E>(xs: seq<A>, f: A -> Result<seq<B>, E>)
    requires forall k :: 0 <= k < |xs| && f(xs[k]).Ok? ==> |f(xs[k]).value| == 1
    requires Collect(xs, f).Ok?
    ensures |Collect(xs, f).value| == |xs|
    ensures forall k :: 0 <= k < |xs| ==> f(xs[k]) == Ok([Collect(xs, f).value[k]])
    decreases |xs|
  {
    if xs != [] {
      CollectOkEach(xs, f, 0);
      assert forall k :: 0 <= k < |xs| - 1 ==> xs[1..][k] == xs[k + 1];
      CollectOnePerElement(xs[1..], f);
      var b := f(xs[0]).value;
      var rest := Collect(xs[1..], f).value;
      assert Collect(xs, f).value == b + rest;
      forall k | 0 <= k < |xs|
        ensures f(xs[k]) == Ok([Collect(xs, f).value[k]])
      {
        if k > 0 {
          assert xs[1..][k - 1] == xs[k];
          assert Collect(xs, f).value[k] == rest[k - 1];
        } else {
          assert b == [b[0]];
        }
      }
    }
  }

  lemma PrependNil<B, E>(r: Result<seq<B>, E>)
    ensures Prepend([], r) == r
  {
    if r.Ok? {
      assert [] + r.value == r.value;
    }
  }

  /** A failed walk fails with the failure of one of its elements. */
  lemma {:induction false} CollectErrorFrom<A, B, E>(xs: seq<A>, f: A -> Result<seq<B>, E>)
    requires Collect(xs, f).Err?
    ensures exists k :: 0 <= k < |xs| && f(xs[k]) == Err(Collect(xs, f).error)
    decreases |xs|
  {
    if f(xs[0]).Ok? {
      CollectErrorFrom(xs[1..], f);
      var k :| 0 <= k < |xs[1..]| && f(xs[1..][k]) == Err(Collect(xs[1..], f).error);
      assert xs[1..][k] == xs[k + 1];
    }
  }
}
