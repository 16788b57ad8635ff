/** Optional values, used wherever the source reads a field or document that may be absent. */
module Wrappers {

  datatype Option<+T> = None | Some(value: T) {

    /** The value, or `default` when absent (Python's `d.get(key, default)`). */
    function GetOr(default: T): T {
      match this
      case Some(v) => v
      case None => default
    }
  }

  /** The position of the first element of `s` that satisfies `p` (the store's `find_one`). */
  function FirstIndex<T>(s: seq<T>, p: T -> bool): (r: Option<nat>)
    ensures r.Some? ==> r.value < |s| && p(s[r.value])
    ensures r.Some? ==> forall j :: 0 <= j < r.value ==> !p(s[j])
    ensures r.None? <==> forall j :: 0 <= j < |s| ==> !p(s[j])
  {
    if |s| == 0 then None
    else if p(s[0]) then Some(0)
    else match FirstIndex(s[1..], p)
      case None => None
      case Some(k) => Some(k + 1)
  }

  /** The first element of `s` that satisfies `p`, if any. */
  function FindFirst<T>(s: seq<T>, p: T -> bool): (r: Option<T>)
    ensures r.Some? ==> r.value in s && p(r.value)
    ensures r.None? <==> forall j :: 0 <= j < |s| ==> !p(s[j])
    ensures r.Some? ==> exists k :: 0 <= k < |s| && s[k] == r.value && forall j :: 0 <= j < k ==> !p(s[j])
  {
    match FirstIndex(s, p)
    case None => None
    case Some(k) => Some(s[k])
  }

  /** `[f(x) for x in xs]` where each `f(x)` may raise: `None` as soon as one does. */
  function AllSome<T, U>(xs: seq<T>, f: T -> Option<U>): Option<seq<U>> {
    if |xs| == 0 then Some([])
    else
      var init := AllSome(xs[..|xs| - 1], f);
      var last := f(xs[|xs| - 1]);
      if init.Some? && last.Some? then Some(init.value + [last.value]) else None
  }

  /** All results are collected exactly when no element fails, one per element, in order. */
  lemma {:induction false} AllSomeMeaning<T, U>(xs: seq<T>, f: T -> Option<U>)
    ensures AllSome(xs, f).Some? <==> forall i :: 0 <= i < |xs| ==> f(xs[i]).Some?
    ensures AllSome(xs, f).Some? ==> |AllSome(xs, f).value| == |xs|
    ensures AllSome(xs, f).Some? ==> forall i :: 0 <= i < |xs| ==> f(xs[i]) == Some(AllSome(xs, f).value[i])
  {
    if |xs| > 0 {
      var n := |xs| - 1;
      AllSomeMeaning(xs[..n], f);
      assert forall i :: 0 <= i < n ==> xs[..n][i] == xs[i];
    }
  }

  /** Collecting one more element extends the results by its own. */
  lemma AllSomeExtend<T, U>(xs: seq<T>, i: nat, f: T -> Option<U>, done: seq<U>, y: U)
    requires i < |xs| && AllSome(xs[..i], f) == Some(done) && f(xs[i]) == Some(y)
    ensures AllSome(xs[..i + 1], f) == Some(done + [y])
  {
    assert xs[..i + 1][..i] == xs[..i];
  }

  /** One element that raises makes the whole collection raise. */
  lemma AllSomeFails<T, U>(xs: seq<T>, i: nat, f: T -> Option<U>)
    requires i < |xs| && f(xs[i]).None?
    ensures AllSome(xs, f).None?
  {
    AllSomeMeaning(xs, f);
  }

  /** The elements of `s` that satisfy `p`, in their order in `s`. */
  function Filter<T>(s: seq<T>, p: T -> bool): (r: seq<T>)
    ensures |r| <= |s|
    ensures forall i :: 0 <= i < |r| ==> r[i] in s && p(r[i])
    ensures forall i :: 0 <= i < |s| && p(s[i]) ==> s[i] in r
  {
    if |s| == 0 then []
    else
      var rest := Filter(s[1..], p);
      assert forall x :: x in s[1..] ==> x in s;
      if p(s[0]) then [s[0]] + rest else rest
  }

  /** Filtering one element keeps it exactly when it satisfies `p`. */
  lemma FilterOne<T>(x: T, p: T -> bool)
    ensures Filter([x], p) == if p(x) then [x] else []
  {
    assert [x][1..] == [];
  }

  /**
    Filtering distributes over concatenation; with `FilterOne` this fixes the
    result: every element that satisfies `p` is kept once, in its place.
   */
  lemma {:induction false} FilterAppend<T>(s: seq<T>, t: seq<T>, p: T -> bool)
    ensures Filter(s + t, p) == Filter(s, p) + Filter(t, p)
  {
    if |s| == 0 {
      assert s + t == t;
    } else {
      assert (s + t)[0] == s[0];
      assert (s + t)[1..] == s[1..] + t;
      FilterAppend(s[1..], t, p);
    }
  }

  /** Two predicates that agree on every element keep the same elements. */
  lemma {:induction false} FilterAgree<T>(s: seq<T>, p: T -> bool, q: T -> bool)
    requires forall x :: p(x) == q(x)
    ensures Filter(s, p) == Filter(s, q)
  {
    if |s| > 0 {
      FilterAgree(s[1..], p, q);
    }
  }
}
