/** The Kotlin collection operations the client is built from (`map`,
    `filter`, `mapNotNull`, `find`, `chunked`, `take`, concatenation of
    batches), each with the property the callers rely on. */
module Lists {
  import opened Model

  /** Kotlin's `map`. */
  function Map<T, U>(xs: seq<T>, f: T -> U): (r: seq<U>)
    ensures |r| == |xs|
    ensures forall i :: 0 <= i < |xs| ==> r[i] == f(xs[i])
  {
    seq(|xs|, i requires 0 <= i < |xs| => f(xs[i]))
  }

  /** Kotlin's `filter`: the elements of `xs` that satisfy `p`, in order. */
  function Filter<T>(xs: seq<T>, p: T -> bool): (r: seq<T>)
    ensures |r| <= |xs|
    ensures forall x :: x in r ==> x in xs && p(x)
  {
    if xs == [] then [] else (if p(xs[0]) then [xs[0]] else []) + Filter(xs[1..], p)
  }

  /** Filtering with a predicate every element satisfies changes nothing. */
  lemma {:induction false} FilterAll<T>(xs: seq<T>, p: T -> bool)
    requires forall i :: 0 <= i < |xs| ==> p(xs[i])
    ensures Filter(xs, p) == xs
  {
    if xs != [] {
      assert forall i :: 0 <= i < |xs[1..]| ==> xs[1..][i] == xs[i + 1];
      FilterAll(xs[1..], p);
    }
  }

  /** Kotlin's `mapNotNull`: `f` applied to each element, the nulls dropped. */
  function MapNotNull<T, U>(xs: seq<T>, f: T -> Option<U>): (r: seq<U>)
    ensures |r| <= |xs|
  {
    if xs == [] then []
    else (match f(xs[0]) case Some(y) => [y] case None => []) + MapNotNull(xs[1..], f)
  }

  /** Kotlin's `find`: the first element satisfying `p`, or null. */
  function Find<T>(xs: seq<T>, p: T -> bool): (r: Option<T>)
    ensures r.None? <==> forall i :: 0 <= i < |xs| ==> !p(xs[i])
    ensures r.Some? ==> exists i :: 0 <= i < |xs| && xs[i] == r.value && p(xs[i]) &&
                                    forall j :: 0 <= j < i ==> !p(xs[j])
  {
    if xs == [] then None
    else if p(xs[0]) then Some(xs[0])
    else
      var r := Find(xs[1..], p);
      assert forall i :: 1 <= i < |xs| ==> xs[i] == xs[1..][i - 1];
      r
  }

  /** Strictly increasing positions, each below `n`. */
  ghost predicate Ascending(idx: seq<nat>, n: nat) {
    && (forall k :: 0 <= k < |idx| ==> idx[k] < n)
    && (forall k, l :: 0 <= k < l < |idx| ==> idx[k] < idx[l])
  }

  /** `r` is the subsequence of `xs` at the ascending positions `idx`, and
      `idx` holds exactly the positions whose element satisfies `p`. */
  ghost predicate FilteredAt<T>(xs: seq<T>, p: T -> bool, r: seq<T>, idx: seq<nat>) {
    && Ascending(idx, |xs|)
    && |r| == |idx|
    && (forall k :: 0 <= k < |idx| ==> r[k] == xs[idx[k]])
    && (forall i :: 0 <= i < |xs| ==> (p(xs[i]) <==> i in idx))
  }

  /** `r` lists, in order, the non-null images under `f` of the elements of
      `xs` at the ascending positions `idx`, and `idx` holds exactly the
      positions whose image is not null. */
  ghost predicate MappedAt<T, U>(xs: seq<T>, f: T -> Option<U>, r: seq<U>, idx: seq<nat>) {
    && Ascending(idx, |xs|)
    && |r| == |idx|
    && (forall k :: 0 <= k < |idx| ==> f(xs[idx[k]]) == Some(r[k]))
    && (forall i :: 0 <= i < |xs| ==> (f(xs[i]).Some? <==> i in idx))
  }

  /** Every position moved one place to the right. */
  function Shift(idx: seq<nat>): seq<nat> {
    seq(|idx|, k requires 0 <= k < |idx| => idx[k] + 1)
  }

  lemma ShiftMember(idx: seq<nat>, i: nat)
    ensures i in Shift(idx) <==> i >= 1 && i - 1 in idx
  {
    if i >= 1 && i - 1 in idx {
      var k :| 0 <= k < |idx| && idx[k] == i - 1;
      assert Shift(idx)[k] == i;
    }
  }

  /** Prepending an element keeps ascending positions ascending once they
      are shifted. */
  lemma ShiftAscending(head: seq<nat>, tail: seq<nat>, n: nat)
    requires Ascending(tail, n)
    requires head == [] || head == [0]
    ensures Ascending(head + Shift(tail), n + 1)
  {
  }

  /** Consing an element onto a filtered list: its position is 0 when it
      is kept, and the tail's positions move one place right. */
  lemma FilteredCons<T>(xs: seq<T>, p: T -> bool, r: seq<T>, tail: seq<nat>)
    requires xs != []
    requires FilteredAt(xs[1..], p, r, tail)
    ensures FilteredAt(xs, p, (if p(xs[0]) then [xs[0]] else []) + r,
                       (if p(xs[0]) then [0] else []) + Shift(tail))
  {
    var head: seq<nat> := if p(xs[0]) then [0] else [];
    ShiftAscending(head, tail, |xs| - 1);
    FilteredConsElements(xs, p, r, tail);
    FilteredConsMembers(xs, p, tail);
  }

  /** The elements half of `FilteredCons`. */
  lemma FilteredConsElements<T>(xs: seq<T>, p: T -> bool, r: seq<T>, tail: seq<nat>)
    requires xs != []
    requires |r| == |tail| && forall k :: 0 <= k < |tail| ==> tail[k] < |xs| - 1 && r[k] == xs[1..][tail[k]]
    ensures var idx := (if p(xs[0]) then [0] else []) + Shift(tail);
            var res := (if p(xs[0]) then [xs[0]] else []) + r;
            |res| == |idx| && forall k :: 0 <= k < |idx| ==> res[k] == xs[idx[k]]
  {
    var head: seq<nat> := if p(xs[0]) then [0] else [];
    var first := if p(xs[0]) then [xs[0]] else [];
    var idx, res := head + Shift(tail), first + r;
    forall k | 0 <= k < |idx| ensures res[k] == xs[idx[k]] {
      if k >= |head| {
        assert res[k] == r[k - |head|];
        assert idx[k] == tail[k - |head|] + 1;
        assert xs[idx[k]] == xs[1..][tail[k - |head|]];
      }
    }
  }

  /** The membership half of `FilteredCons`. */
  lemma FilteredConsMembers<T>(xs: seq<T>, p: T -> bool, tail: seq<nat>)
    requires xs != []
    requires forall i :: 0 <= i < |xs[1..]| ==> (p(xs[1..][i]) <==> i in tail)
    ensures forall i :: 0 <= i < |xs| ==> (p(xs[i]) <==> i in (if p(xs[0]) then [0] else []) + Shift(tail))
  {
    var idx := (if p(xs[0]) then [0] else []) + Shift(tail);
    forall i | 0 <= i < |xs| ensures p(xs[i]) <==> i in idx {
      ShiftMember(tail, i);
      if i >= 1 {
        assert xs[i] == xs[1..][i - 1];
      }
    }
  }

  /** `filter` keeps exactly the elements that satisfy the predicate, in
      their original order. */
  lemma {:induction false} FilterPositions<T>(xs: seq<T>, p: T -> bool) returns (idx: seq<nat>)
    ensures FilteredAt(xs, p, Filter(xs, p), idx)
  {
    if xs == [] {
      idx := [];
    } else {
      var tail := FilterPositions(xs[1..], p);
      FilteredCons(xs, p, Filter(xs[1..], p), tail);
      idx := (if p(xs[0]) then [0] else []) + Shift(tail);
    }
  }

  /** The same for `mapNotNull`. */
  lemma MappedCons<T, U>(xs: seq<T>, f: T -> Option<U>, r: seq<U>, tail: seq<nat>)
    requires xs != []
    requires MappedAt(xs[1..], f, r, tail)
    ensures MappedAt(xs, f, (match f(xs[0]) case Some(y) => [y] case None => []) + r,
                     (if f(xs[0]).Some? then [0] else []) + Shift(tail))
  {
    var head: seq<nat> := if f(xs[0]).Some? then [0] else [];
    var first: seq<U> := match f(xs[0]) case Some(y) => [y] case None => [];
    var idx, res := head + Shift(tail), first + r;
    ShiftAscending(head, tail, |xs| - 1);
    assert |first| == |head|;
    forall k | 0 <= k < |idx| ensures f(xs[idx[k]]) == Some(res[k]) {
      if k >= |head| {
        assert res[k] == r[k - |head|];
        assert idx[k] == tail[k - |head|] + 1;
        assert xs[idx[k]] == xs[1..][tail[k - |head|]];
      }
    }
    forall i | 0 <= i < |xs| ensures f(xs[i]).Some? <==> i in idx {
      ShiftMember(tail, i);
      if i >= 1 {
        assert xs[i] == xs[1..][i - 1];
      }
    }
  }

  /** `mapNotNull` keeps exactly the non-null images, in their original
      order. */
  lemma {:induction false} MapNotNullPositions<T, U>(xs: seq<T>, f: T -> Option<U>) returns (idx: seq<nat>)
    ensures MappedAt(xs, f, MapNotNull(xs, f), idx)
  {
    if xs == [] {
      idx := [];
    } else {
      var tail := MapNotNullPositions(xs[1..], f);
      MappedCons(xs, f, MapNotNull(xs[1..], f), tail);
      idx := (if f(xs[0]).Some? then [0] else []) + Shift(tail);
    }
  }

  /** Kotlin's `flatten` / repeated `addAll`: the batches concatenated. */
  function Flatten<T>(xss: seq<seq<T>>): seq<T> {
    if xss == [] then [] else xss[0] + Flatten(xss[1..])
  }

  lemma {:induction false} FlattenAppend<T>(xss: seq<seq<T>>, ys: seq<T>)
    ensures Flatten(xss + [ys]) == Flatten(xss) + ys
  {
    if xss == [] {
      assert [] + [ys] == [ys];
      assert Flatten([ys]) == ys + Flatten([ys][1..]);
    } else {
      assert (xss + [ys])[1..] == xss[1..] + [ys];
      FlattenAppend(xss[1..], ys);
    }
  }

  lemma {:induction false} FlattenConcat<T>(a: seq<seq<T>>, b: seq<seq<T>>)
    ensures Flatten(a + b) == Flatten(a) + Flatten(b)
    decreases |a|
  {
    if a == [] {
      assert [] + b == b;
    } else {
      assert (a + b)[1..] == a[1..] + b;
      FlattenConcat(a[1..], b);
    }
  }

  /** The batches of a prefix flatten to a prefix of the whole. */
  lemma FlattenPrefix<T>(xss: seq<seq<T>>, j: nat)
    requires j <= |xss|
    ensures Flatten(xss[..j]) <= Flatten(xss)
  {
    assert xss == xss[..j] + xss[j..];
    FlattenConcat(xss[..j], xss[j..]);
  }

  /** Batches of equal sizes have equal totals. */
  lemma {:induction false} TotalSizeSameShape<T, U>(a: seq<seq<T>>, b: seq<seq<U>>)
    requires |a| == |b|
    requires forall k :: 0 <= k < |a| ==> |a[k]| == |b[k]|
    ensures TotalSize(a) == TotalSize(b)
    decreases |a|
  {
    if a != [] {
      TotalSizeSameShape(a[..|a| - 1], b[..|b| - 1]);
    }
  }

  /** Kotlin's `chunked(n)`: consecutive windows of `n` elements, the last
      one possibly shorter. The windows are non-empty, partition `xs` in
      order, and all but the last have exactly `n` elements. */
  function Chunked<T>(xs: seq<T>, n: nat): (r: seq<seq<T>>)
    requires n > 0
    ensures Flatten(r) == xs
    ensures forall k :: 0 <= k < |r| ==> 0 < |r[k]| <= n
    ensures forall k :: 0 <= k < |r| - 1 ==> |r[k]| == n
    decreases |xs|
  {
    if xs == [] then []
    else if |xs| <= n then
      assert Flatten([xs]) == xs + Flatten([xs][1..]);
      [xs]
    else
      var rest := Chunked(xs[n..], n);
      assert ([xs[..n]] + rest)[1..] == rest;
      assert xs[..n] + xs[n..] == xs;
      [xs[..n]] + rest
  }

  /** Kotlin's `take(k)`: the first `k` elements, or all of them. */
  function Take<T>(xs: seq<T>, k: nat): seq<T> {
    if k < |xs| then xs[..k] else xs
  }

  function Min(a: int, b: int): int {
    if a <= b then a else b
  }

  lemma TakeCons<T>(x: T, xs: seq<T>, k: nat)
    requires k > 0
    ensures Take([x] + xs, k) == [x] + Take(xs, k - 1)
  {
  }

  lemma SlicesJoin<T>(xs: seq<T>, n: nat, m: nat)
    requires n + m <= |xs|
    ensures xs[..n] + xs[n..][..m] == xs[..n + m]
  {
  }

  /** A prefix one longer is the prefix followed by the next element. */
  lemma PrefixSnoc<T>(xs: seq<T>, i: nat)
    requires i < |xs|
    ensures xs[..i + 1] == xs[..i] + [xs[i]]
  {
  }

  /** `n` copies of `x`, built one at the end at a time as a log grows. */
  function Repeat<T>(x: T, n: nat): (r: seq<T>)
    ensures |r| == n
    ensures forall k :: 0 <= k < n ==> r[k] == x
  {
    if n == 0 then [] else Repeat(x, n - 1) + [x]
  }

  /** A log of copies of `x` grows by one more. */
  lemma RepeatLogStep<T>(log: seq<T>, log0: seq<T>, x: T, n: nat)
    requires log == log0 + Repeat(x, n)
    ensures log + [x] == log0 + Repeat(x, n + 1)
  {
  }

  /** `n * k`, written as repeated addition so that the induction below
      stays linear. */
  function Times(n: nat, k: nat): nat {
    if k == 0 then 0 else n + Times(n, k - 1)
  }

  lemma {:induction false} TimesIsProduct(n: nat, k: nat)
    ensures Times(n, k) == n * k
  {
    if k > 0 {
      TimesIsProduct(n, k - 1);
      assert n * k == n + n * (k - 1);
    }
  }

  lemma {:induction false} FlattenTakeChunkedTimes<T>(xs: seq<T>, n: nat, k: nat)
    requires n > 0
    ensures Flatten(Take(Chunked(xs, n), k)) == xs[..Min(|xs|, Times(n, k))]
    decreases |xs|
  {
    var c := Chunked(xs, n);
    if k == 0 || xs == [] {
      assert Take(c, k) == [];
    } else if |xs| <= n {
      assert c == [xs];
      assert Take(c, k) == [xs];
      assert Flatten([xs]) == xs + Flatten([xs][1..]);
      assert xs[..|xs|] == xs;
    } else {
      var rest := Chunked(xs[n..], n);
      assert c == [xs[..n]] + rest;
      TakeCons(xs[..n], rest, k);
      var taken := Take(rest, k - 1);
      assert ([xs[..n]] + taken)[1..] == taken;
      FlattenTakeChunkedTimes(xs[n..], n, k - 1);
      var m := Min(|xs| - n, Times(n, k - 1));
      SlicesJoin(xs, n, m);
    }
  }

  /** The first `k` windows of `chunked(n)` cover exactly the first
      `min(|xs|, n * k)` elements. */
  lemma FlattenTakeChunked<T>(xs: seq<T>, n: nat, k: nat)
    requires n > 0
    ensures Flatten(Take(Chunked(xs, n), k)) == xs[..Min(|xs|, n * k)]
  {
    FlattenTakeChunkedTimes(xs, n, k);
    TimesIsProduct(n, k);
  }

  /** The number of elements across all batches, summed batch by batch. */
  function TotalSize<T>(xss: seq<seq<T>>): nat {
    if xss == [] then 0 else TotalSize(xss[..|xss| - 1]) + |xss[|xss| - 1]|
  }

  lemma {:induction false} TotalSizeIsFlattenLength<T>(xss: seq<seq<T>>)
    ensures TotalSize(xss) == |Flatten(xss)|
    decreases |xss|
  {
    if xss != [] {
      var init, last := xss[..|xss| - 1], xss[|xss| - 1];
      TotalSizeIsFlattenLength(init);
      assert xss == init + [last];
      FlattenAppend(init, last);
    }
  }

  /** The running total after each batch: entry `k` is the number of
      elements in the first `k + 1` batches. */
  function RunningTotals<T>(xss: seq<seq<T>>): (r: seq<nat>)
    ensures |r| == |xss|
  {
    if xss == [] then [] else RunningTotals(xss[..|xss| - 1]) + [TotalSize(xss)]
  }

  lemma RunningTotalsAppend<T>(xss: seq<seq<T>>, ys: seq<T>)
    ensures TotalSize(xss + [ys]) == TotalSize(xss) + |ys|
    ensures RunningTotals(xss + [ys]) == RunningTotals(xss) + [TotalSize(xss) + |ys|]
  {
    assert (xss + [ys])[..|xss|] == xss;
  }

  /** Each running total counts the elements of the batches up to and
      including its own. */
  lemma {:induction false} RunningTotalsAt<T>(xss: seq<seq<T>>, k: nat)
    requires k < |xss|
    ensures RunningTotals(xss)[k] == TotalSize(xss[..k + 1])
    decreases |xss|
  {
    if k < |xss| - 1 {
      var init := xss[..|xss| - 1];
      RunningTotalsAt(init, k);
      assert init[..k + 1] == xss[..k + 1];
    } else {
      assert xss[..k + 1] == xss;
    }
  }

  /** The running totals never decrease and never exceed the total. */
  lemma {:induction false} RunningTotalsNonDecreasing<T>(xss: seq<seq<T>>)
    ensures forall j, k :: 0 <= j <= k < |xss| ==> RunningTotals(xss)[j] <= RunningTotals(xss)[k]
    ensures forall k :: 0 <= k < |xss| ==> RunningTotals(xss)[k] <= TotalSize(xss)
    decreases |xss|
  {
    if xss != [] {
      RunningTotalsNonDecreasing(xss[..|xss| - 1]);
    }
  }
}
