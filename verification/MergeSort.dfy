/**
 The generator's list sort: a binary counter of sorted runs. Run `i` holds 2^i elements or none, so the
 thirty runs hold any list of fewer than 2^30 elements; from there on elements are lost.
 */
module MergeSort {

  /** A comparison function that orders: what it calls "not greater" is total and transitive. */
  ghost predicate Orders<T(!new)>(cmp: (T, T) -> int) {
    (forall a, b :: cmp(a, b) <= 0 || cmp(b, a) <= 0) &&
    (forall a, b, c :: cmp(a, b) <= 0 && cmp(b, c) <= 0 ==> cmp(a, c) <= 0)
  }

  ghost predicate Sorted<T>(cmp: (T, T) -> int, xs: seq<T>) {
    forall i, j :: 0 <= i < j < |xs| ==> cmp(xs[i], xs[j]) <= 0
  }

  function Pow2(n: nat): (r: nat)
    ensures r > 0
  {
    if n == 0 then 1 else 2 * Pow2(n - 1)
  }

  /** The merge of two runs; of two elements neither of which is greater, the left one comes first. */
  function Merged<T>(cmp: (T, T) -> int, xs: seq<T>, ys: seq<T>): (r: seq<T>)
    ensures |r| == |xs| + |ys|
    decreases |xs| + |ys|
  {
    if xs == [] then ys
    else if ys == [] then xs
    else if cmp(xs[0], ys[0]) <= 0 then [xs[0]] + Merged(cmp, xs[1..], ys)
    else [ys[0]] + Merged(cmp, xs, ys[1..])
  }

  lemma {:induction false} MergedElements<T>(cmp: (T, T) -> int, xs: seq<T>, ys: seq<T>)
    ensures multiset(Merged(cmp, xs, ys)) == multiset(xs) + multiset(ys)
    decreases |xs| + |ys|
  {
    if xs != [] && ys != [] {
      if cmp(xs[0], ys[0]) <= 0 {
        MergedElements(cmp, xs[1..], ys);
        HeadAside(xs, Merged(cmp, xs[1..], ys));
      } else {
        MergedElements(cmp, xs, ys[1..]);
        HeadAside(ys, Merged(cmp, xs, ys[1..]));
      }
    }
  }

  lemma HeadAside<T>(xs: seq<T>, rest: seq<T>)
    requires xs != []
    ensures multiset([xs[0]] + rest) == multiset{xs[0]} + multiset(rest)
    ensures multiset(xs) == multiset{xs[0]} + multiset(xs[1..])
  {
    assert xs == [xs[0]] + xs[1..];
  }

  /** An element that is not greater than any of either run is not greater than any of their merge. */
  lemma {:induction false} MergedAbove<T>(cmp: (T, T) -> int, x: T, xs: seq<T>, ys: seq<T>)
    requires forall i :: 0 <= i < |xs| ==> cmp(x, xs[i]) <= 0
    requires forall i :: 0 <= i < |ys| ==> cmp(x, ys[i]) <= 0
    ensures forall i :: 0 <= i < |xs| + |ys| ==> cmp(x, Merged(cmp, xs, ys)[i]) <= 0
    decreases |xs| + |ys|
  {
    if xs != [] && ys != [] {
      if cmp(xs[0], ys[0]) <= 0 { MergedAbove(cmp, x, xs[1..], ys); } else { MergedAbove(cmp, x, xs, ys[1..]); }
    }
  }

  lemma {:induction false} MergedSorted<T(!new)>(cmp: (T, T) -> int, xs: seq<T>, ys: seq<T>)
    requires Orders(cmp) && Sorted(cmp, xs) && Sorted(cmp, ys)
    ensures Sorted(cmp, Merged(cmp, xs, ys))
    decreases |xs| + |ys|
  {
    if xs != [] && ys != [] {
      if cmp(xs[0], ys[0]) <= 0 {
        MergedSorted(cmp, xs[1..], ys);
        MergedAbove(cmp, xs[0], xs[1..], ys);
      } else {
        MergedSorted(cmp, xs, ys[1..]);
        MergedAbove(cmp, ys[0], xs, ys[1..]);
      }
    }
  }

  /** `merge`. */
  method Merge<T>(cmp: (T, T) -> int, xs: seq<T>, ys: seq<T>) returns (r: seq<T>)
    ensures r == Merged(cmp, xs, ys)
  {
    r := [];
    var a, b := xs, ys;
    while a != [] && b != []
      invariant r + Merged(cmp, a, b) == Merged(cmp, xs, ys)
      decreases |a| + |b|
    {
      if cmp(a[0], b[0]) <= 0 {
        r, a := r + [a[0]], a[1..];
      } else {
        r, b := r + [b[0]], b[1..];
      }
    }
    r := r + if a != [] then a else b;
  }

  const LISTSIZE: nat := 30

  /** Runs of a counter: run `i` is sorted and holds 2^i elements or none. */
  ghost predicate Runs<T>(cmp: (T, T) -> int, bins: seq<seq<T>>) {
    forall i :: 0 <= i < |bins| ==> Sorted(cmp, bins[i]) && (bins[i] == [] || |bins[i]| == Pow2(i))
  }

  function All<T>(bins: seq<seq<T>>): seq<T>
    decreases |bins|
  {
    if bins == [] then [] else All(bins[..|bins| - 1]) + bins[|bins| - 1]
  }

  /** How many elements the runs hold after `n` were put in. */
  function Held(n: nat): nat {
    if n < Pow2(LISTSIZE) then n else Pow2(LISTSIZE - 1) + n % Pow2(LISTSIZE - 1)
  }

  lemma HeldNext(n: nat)
    ensures Held(n) < Pow2(LISTSIZE)
    ensures Held(n + 1) == if Held(n) == Pow2(LISTSIZE) - 1 then Pow2(LISTSIZE - 1) else Held(n) + 1
  {
    var p := Pow2(LISTSIZE - 1);
    assert Pow2(LISTSIZE) == 2 * p;
    if n + 1 >= 2 * p {
      assert n % p == p - 1 ==> (n + 1) % p == 0 by { Wraps(n, p); }
      assert n % p < p - 1 ==> (n + 1) % p == n % p + 1 by { Wraps(n, p); }
      if n < 2 * p { assert n == 2 * p - 1 && n % p == p - 1 by { Remainder(n, p); } }
    }
  }

  lemma Wraps(n: nat, p: nat)
    requires p > 0
    ensures (n + 1) % p == if n % p == p - 1 then 0 else n % p + 1
  {
    var q := n / p;
    assert n == q * p + n % p;
    if n % p == p - 1 {
      assert n + 1 == (q + 1) * p;
      Quotient(n + 1, q + 1, 0, p);
    } else {
      Quotient(n + 1, q, n % p + 1, p);
    }
  }

  lemma Quotient(n: nat, q: nat, r: nat, p: nat)
    requires n == q * p + r && r < p
    ensures n % p == r
  {
    assert n == (n / p) * p + n % p;
    var d := q - n / p;
    assert d * p == n % p - r;
    assert d >= 1 ==> d * p >= p;
    assert d <= -1 ==> d * p + p <= 0;
  }

  lemma Remainder(n: nat, p: nat)
    requires n == 2 * p - 1 && p > 0
    ensures n % p == p - 1
  {
    Quotient(n, 1, p - 1, p);
  }

  lemma Shuffle<T>(a: multiset<T>, b: multiset<T>, c: multiset<T>, d: multiset<T>, e: multiset<T>)
    requires a + b == c + d
    ensures a + e + b == c + e + d
  {
    assert a + e + b == a + b + e && c + e + d == c + d + e;
  }

  lemma {:induction false} AllUpdate<T>(bins: seq<seq<T>>, i: nat, ys: seq<T>)
    requires i < |bins|
    ensures multiset(All(bins[i := ys])) + multiset(bins[i]) == multiset(All(bins)) + multiset(ys)
    decreases |bins|
  {
    var n := |bins| - 1;
    var cs := bins[i := ys];
    if i < n {
      AllUpdate(bins[..n], i, ys);
      assert cs[..n] == bins[..n][i := ys] && cs[n] == bins[n];
      Shuffle(multiset(All(cs[..n])), multiset(bins[i]), multiset(All(bins[..n])), multiset(ys), multiset(bins[n]));
    } else {
      assert cs[..n] == bins[..n] && cs[n] == ys;
    }
  }

  lemma {:induction false} AllEmpty<T>(bins: seq<seq<T>>)
    requires forall i :: 0 <= i < |bins| ==> bins[i] == []
    ensures All(bins) == []
    decreases |bins|
  {
    if bins != [] { AllEmpty(bins[..|bins| - 1]); }
  }

  lemma LastOnly<T>(bins: seq<seq<T>>)
    requires bins != [] && forall i :: 0 <= i < |bins| - 1 ==> bins[i] == []
    ensures All(bins) == bins[|bins| - 1]
  {
    AllEmpty(bins[..|bins| - 1]);
  }

  lemma {:induction false} UpperBound<T>(cmp: (T, T) -> int, bins: seq<seq<T>>, i: nat)
    requires Runs(cmp, bins) && i <= |bins| && forall j :: 0 <= j < i ==> bins[j] == []
    ensures |All(bins)| + Pow2(i) <= Pow2(|bins|)
    decreases |bins|
  {
    if i == |bins| {
      AllEmpty(bins);
    } else {
      var n := |bins| - 1;
      UpperBound(cmp, bins[..n], i);
      assert bins[n] == [] || |bins[n]| == Pow2(n);
      assert Pow2(n + 1) == 2 * Pow2(n);
    }
  }

  // ----- counting -----

  /** A run of 2^i elements is carried into the counter from run `i` on. */
  function Carried<T>(cmp: (T, T) -> int, bins: seq<seq<T>>, i: nat, ep: seq<T>): (r: seq<seq<T>>)
    requires i < |bins|
    ensures |r| == |bins|
    decreases |bins| - i
  {
    if i < |bins| - 1 && bins[i] != [] then Carried(cmp, bins[i := []], i + 1, Merged(cmp, ep, bins[i]))
    else bins[i := ep]
  }

  /** What carrying a run of 2^i elements into the counter must achieve. */
  ghost predicate Carries<T>(cmp: (T, T) -> int, bins: seq<seq<T>>, ep: seq<T>, r: seq<seq<T>>)
    requires bins != []
  {
    Runs(cmp, r) && |ep| + |All(bins)| <= Pow2(|bins|) &&
    (|ep| + |All(bins)| < Pow2(|bins|) ==> multiset(All(r)) == multiset(All(bins)) + multiset(ep)) &&
    (|ep| + |All(bins)| == Pow2(|bins|) ==> |All(r)| == Pow2(|bins| - 1))
  }

  lemma {:induction false} CarriedOk<T(!new)>(cmp: (T, T) -> int, bins: seq<seq<T>>, i: nat, ep: seq<T>)
    requires Orders(cmp) && Runs(cmp, bins) && i < |bins| && (forall j :: 0 <= j < i ==> bins[j] == [])
    requires Sorted(cmp, ep) && |ep| == Pow2(i)
    ensures Carries(cmp, bins, ep, Carried(cmp, bins, i, ep))
    decreases |bins| - i
  {
    hide Orders, Sorted, Carries;
    if i < |bins| - 1 && bins[i] != [] {
      var ep', bins' := Merged(cmp, ep, bins[i]), bins[i := []];
      MergedElements(cmp, ep, bins[i]);
      MergedSorted(cmp, ep, bins[i]);
      SortedNil(cmp);
      CarriedOk(cmp, bins', i + 1, ep');
      CarriedOn(cmp, bins, i, ep, ep', Carried(cmp, bins', i + 1, ep'));
    } else if i == |bins| - 1 {
      CarriedLast(cmp, bins, ep);
    } else {
      CarriedFree(cmp, bins, i, ep);
    }
  }

  lemma CarriedOn<T>(cmp: (T, T) -> int, bins: seq<seq<T>>, i: nat, ep: seq<T>, ep': seq<T>, r: seq<seq<T>>)
    requires i < |bins| && multiset(ep') == multiset(ep) + multiset(bins[i]) && Carries(cmp, bins[i := []], ep', r)
    ensures Carries(cmp, bins, ep, r)
  {
    hide Runs, All;
    var a, b := All(bins[i := []]), All(bins);
    AllUpdate(bins, i, []);
    assert multiset(a) + multiset(bins[i]) == multiset(b);
    assert multiset(a) + multiset(ep') == multiset(b) + multiset(ep);
    SameSize(a + ep', b + ep);
  }

  lemma CarriedLast<T>(cmp: (T, T) -> int, bins: seq<seq<T>>, ep: seq<T>)
    requires bins != [] && Runs(cmp, bins) && Sorted(cmp, ep) && |ep| == Pow2(|bins| - 1)
    requires forall j :: 0 <= j < |bins| - 1 ==> bins[j] == []
    ensures Carries(cmp, bins, ep, bins[|bins| - 1 := ep])
  {
    hide Sorted, All;
    var n := |bins| - 1;
    LastOnly(bins);
    LastOnly(bins[n := ep]);
    assert Pow2(|bins|) == 2 * Pow2(n);
    assert bins[n] == [] || |bins[n]| == Pow2(n);
    if bins[n] == [] { assert multiset(ep) == multiset(bins[n]) + multiset(ep); }
  }

  lemma CarriedFree<T>(cmp: (T, T) -> int, bins: seq<seq<T>>, i: nat, ep: seq<T>)
    requires i < |bins| && Runs(cmp, bins) && Sorted(cmp, ep) && |ep| == Pow2(i)
    requires forall j :: 0 <= j <= i ==> bins[j] == []
    ensures Carries(cmp, bins, ep, bins[i := ep])
  {
    hide Sorted;
    AllUpdate(bins, i, ep);
    UpperBound(cmp, bins, i + 1);
    assert Pow2(i + 1) == 2 * Pow2(i);
  }

  lemma SortedNil<T>(cmp: (T, T) -> int)
    ensures Sorted(cmp, [])
  {}

  /** The counter after a whole list. */
  function Counted<T>(cmp: (T, T) -> int, list: seq<T>): (r: seq<seq<T>>)
    ensures |r| == LISTSIZE
    decreases |list|
  {
    if list == [] then seq(LISTSIZE, _ => [])
    else Carried(cmp, Counted(cmp, list[..|list| - 1]), 0, [list[|list| - 1]])
  }

  lemma {:induction false} CountedOk<T(!new)>(cmp: (T, T) -> int, list: seq<T>)
    requires Orders(cmp)
    ensures var bins := Counted(cmp, list);
      Runs(cmp, bins) && |All(bins)| == Held(|list|) &&
      (|list| < Pow2(LISTSIZE) ==> multiset(All(bins)) == multiset(list))
    decreases |list|
  {
    if list == [] {
      AllEmpty(Counted(cmp, list));
    } else {
      var n := |list| - 1;
      var bins, ep := Counted(cmp, list[..n]), [list[n]];
      CountedOk(cmp, list[..n]);
      HeldNext(n);
      assert list == list[..n] + ep;
      CarriedOk(cmp, bins, 0, ep);
      if Held(n) < Pow2(LISTSIZE) - 1 { SameSize(All(Counted(cmp, list)), All(bins) + ep); }
    }
  }

  lemma SameSize<T>(xs: seq<T>, ys: seq<T>)
    requires multiset(xs) == multiset(ys)
    ensures |xs| == |ys|
  {
    assert |multiset(xs)| == |multiset(ys)|;
  }

  /** The runs from the first to the `i`-th, merged. */
  function Gathered<T>(cmp: (T, T) -> int, bins: seq<seq<T>>): (r: seq<T>)
    decreases |bins|
  {
    if bins == [] then []
    else
      var ep := Gathered(cmp, bins[..|bins| - 1]);
      var run := bins[|bins| - 1];
      if run != [] then Merged(cmp, run, ep) else ep
  }

  lemma {:induction false} GatheredOk<T(!new)>(cmp: (T, T) -> int, bins: seq<seq<T>>)
    requires Orders(cmp) && Runs(cmp, bins)
    ensures Sorted(cmp, Gathered(cmp, bins)) && multiset(Gathered(cmp, bins)) == multiset(All(bins))
    decreases |bins|
  {
    if bins != [] {
      var n := |bins| - 1;
      GatheredOk(cmp, bins[..n]);
      MergedElements(cmp, bins[n], Gathered(cmp, bins[..n]));
      MergedSorted(cmp, bins[n], Gathered(cmp, bins[..n]));
    }
  }

  lemma TenTimes(n: nat)
    ensures Pow2(n + 10) == 1024 * Pow2(n)
  {
    assert Pow2(n + 10) == 4 * Pow2(n + 8) && Pow2(n + 8) == 4 * Pow2(n + 6) && Pow2(n + 6) == 4 * Pow2(n + 4);
    assert Pow2(n + 4) == 4 * Pow2(n + 2) && Pow2(n + 2) == 4 * Pow2(n);
  }

  /** What `msort` returns is sorted; it is a permutation of the list exactly when the list is shorter than 2^30. */
  lemma SortsBelowLimit<T(!new)>(cmp: (T, T) -> int, list: seq<T>)
    requires Orders(cmp)
    ensures var r := Gathered(cmp, Counted(cmp, list));
      Sorted(cmp, r) && |r| == Held(|list|) && (multiset(r) == multiset(list) <==> |list| < Pow2(LISTSIZE))
    ensures Pow2(LISTSIZE) == 0x4000_0000
  {
    TenTimes(0);
    TenTimes(10);
    TenTimes(20);
    var bins := Counted(cmp, list);
    CountedOk(cmp, list);
    GatheredOk(cmp, bins);
    SameSize(Gathered(cmp, bins), All(bins));
    HeldNext(|list|);
    if multiset(Gathered(cmp, bins)) == multiset(list) { SameSize(Gathered(cmp, bins), list); }
  }

  /** `msort`. */
  method MSort<T>(cmp: (T, T) -> int, list: seq<T>) returns (r: seq<T>)
    ensures r == Gathered(cmp, Counted(cmp, list))
  {
    var bins: seq<seq<T>> := seq(LISTSIZE, _ => []);
    for k := 0 to |list|
      invariant bins == Counted(cmp, list[..k])
    {
      assert list[..k + 1][..k] == list[..k];
      ghost var before := bins;
      var ep := [list[k]];
      var i := 0;
      while i < LISTSIZE - 1 && bins[i] != []
        invariant i <= LISTSIZE - 1 && |bins| == LISTSIZE
        invariant Carried(cmp, bins, i, ep) == Carried(cmp, before, 0, [list[k]])
      {
        ep := Merge(cmp, ep, bins[i]);
        bins := bins[i := []];
        i := i + 1;
      }
      bins := bins[i := ep];
    }
    assert list[..|list|] == list;
    r := [];
    for i := 0 to LISTSIZE
      invariant r == Gathered(cmp, bins[..i])
    {
      assert bins[..i + 1][..i] == bins[..i];
      if bins[i] != [] { r := Merge(cmp, bins[i], r); }
    }
    assert bins[..LISTSIZE] == bins;
  }
}
