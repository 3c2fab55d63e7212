/** `Array.prototype.filter` over sequences, with the facts the dashboard's
    filters rely on. */
module Seqs {
  import opened Telemetry

  /** The elements of `s` that satisfy `p`, in their original order. */
  function Filter<T>(s: seq<T>, p: T -> bool): (r: seq<T>)
    ensures |r| <= |s|
    ensures forall i :: 0 <= i < |r| ==> p(r[i]) && r[i] in s
    ensures forall x :: x in s && p(x) ==> x in r
  {
    if s == [] then [] else
    var rest := Filter(s[1..], p);
    assert forall x :: x in s[1..] ==> x in s;
    if p(s[0]) then [s[0]] + rest else rest
  }

  /** Filtering distributes over concatenation, so the kept elements keep
      their relative order. */
  lemma {:induction false} FilterAppend<T>(a: seq<T>, b: seq<T>, p: T -> bool)
    ensures Filter(a + b, p) == Filter(a, p) + Filter(b, p)
  {
    if a == [] {
      assert a + b == b;
    } else {
      assert (a + b)[1..] == a[1..] + b;
      FilterAppend(a[1..], b, p);
    }
  }

  /** A filter that keeps everything is the identity. */
  lemma {:induction false} FilterAll<T>(s: seq<T>, p: T -> bool)
    requires forall i :: 0 <= i < |s| ==> p(s[i])
    ensures Filter(s, p) == s
  {
    if s != [] {
      FilterAll(s[1..], p);
    }
  }

  /** A filter that keeps nothing is empty. */
  lemma {:induction false} FilterNone<T>(s: seq<T>, p: T -> bool)
    requires forall i :: 0 <= i < |s| ==> !p(s[i])
    ensures Filter(s, p) == []
  {
    if s != [] {
      FilterNone(s[1..], p);
    }
  }

  /** When `p` fails on a prefix and holds on the rest, the filter is the
      suffix. */
  lemma FilterSuffix<T>(s: seq<T>, p: T -> bool, k: nat)
    requires k <= |s|
    requires forall i :: 0 <= i < k ==> !p(s[i])
    requires forall i :: k <= i < |s| ==> p(s[i])
    ensures Filter(s, p) == s[k..]
  {
    assert s == s[..k] + s[k..];
    FilterAppend(s[..k], s[k..], p);
    FilterNone(s[..k], p);
    FilterAll(s[k..], p);
  }

  /** When `p` holds on a prefix and fails on the rest, the filter is the
      prefix. */
  lemma FilterPrefix<T>(s: seq<T>, p: T -> bool, k: nat)
    requires k <= |s|
    requires forall i :: 0 <= i < k ==> p(s[i])
    requires forall i :: k <= i < |s| ==> !p(s[i])
    ensures Filter(s, p) == s[..k]
  {
    assert s == s[..k] + s[k..];
    FilterAppend(s[..k], s[k..], p);
    FilterAll(s[..k], p);
    FilterNone(s[k..], p);
  }

  /** Filtering by `q` after `p`, where `q` implies `p`, is filtering by `q`
      alone. */
  lemma {:induction false} FilterNarrow<T>(s: seq<T>, p: T -> bool, q: T -> bool)
    requires forall x :: q(x) ==> p(x)
    ensures Filter(Filter(s, p), q) == Filter(s, q)
  {
    if s != [] {
      FilterNarrow(s[1..], p, q);
    }
  }

  /** `Array.prototype.find` by index: the first position whose element
      satisfies `p`, if any. */
  function FirstIndex<T>(s: seq<T>, p: T -> bool): (r: Option<nat>)
    ensures r.Some? ==> r.value < |s| && p(s[r.value])
    ensures r.Some? ==> forall j :: 0 <= j < r.value ==> !p(s[j])
    ensures r.None? ==> forall j :: 0 <= j < |s| ==> !p(s[j])
  {
    if |s| == 0 then None
    else if p(s[0]) then Some(0)
    else match FirstIndex(s[1..], p)
      case None => None
      case Some(i) => Some(i + 1)
  }

  /** The last position whose element satisfies `p`, if any (a backward scan
      that stops at the first hit). */
  function LastIndex<T>(s: seq<T>, p: T -> bool): (r: Option<nat>)
    ensures r.Some? ==> r.value < |s| && p(s[r.value])
    ensures r.Some? ==> forall j :: r.value < j < |s| ==> !p(s[j])
    ensures r.None? ==> forall j :: 0 <= j < |s| ==> !p(s[j])
  {
    if |s| == 0 then None
    else if p(s[|s| - 1]) then Some(|s| - 1)
    else LastIndex(s[..|s| - 1], p)
  }

  /** Growing the scanned prefix by one element. */
  lemma LastIndexExtend<T>(s: seq<T>, p: T -> bool, k: nat)
    requires k < |s|
    ensures LastIndex(s[..k + 1], p) == if p(s[k]) then Some(k) else LastIndex(s[..k], p)
  {
    assert s[..k + 1][..k] == s[..k];
  }
}
