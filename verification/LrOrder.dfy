/**
 The orders the generator sorts by: states and rows come the one with more actions first, and their numbers settle
 which of equals comes first. No two are equal then, so any sorting leaves them the same.
 */
module LrOrder {
  import opened Grammars
  import opened LrCompress
  import opened LrActions
  import opened LrTables
  import opened LrGenerator
  import Lr0

  // ----- sorting by an order in which no two are equal -----

  ghost predicate Total<T(!new)>(less: (T, T) -> bool) {
    (forall a, b :: a != b ==> less(a, b) != less(b, a)) && (forall a :: !less(a, a)) &&
    forall a, b, c :: less(a, b) && less(b, c) ==> less(a, c)
  }

  ghost predicate Ordered<T>(xs: seq<T>, less: (T, T) -> bool) {
    forall i, j :: 0 <= i < j < |xs| ==> less(xs[i], xs[j])
  }

  function Put<T>(xs: seq<T>, x: T, less: (T, T) -> bool): seq<T> {
    if xs == [] || less(x, xs[0]) then [x] + xs else [xs[0]] + Put(xs[1..], x, less)
  }

  /** What `qsort` leaves. */
  function SortBy<T>(xs: seq<T>, less: (T, T) -> bool): seq<T>
    decreases |xs|
  {
    if xs == [] then [] else Put(SortBy(xs[1..], less), xs[0], less)
  }

  lemma {:induction false} PutOk<T(!new)>(xs: seq<T>, x: T, less: (T, T) -> bool)
    requires Total(less) && Ordered(xs, less) && x !in xs
    ensures Ordered(Put(xs, x, less), less) && |Put(xs, x, less)| == |xs| + 1
    ensures forall y :: y in Put(xs, x, less) <==> y == x || y in xs
    decreases |xs|
  {
    if xs != [] && !less(x, xs[0]) {
      PutOk(xs[1..], x, less);
      var ys := Put(xs[1..], x, less);
      assert xs == [xs[0]] + xs[1..];
      forall k | 0 <= k < |ys| ensures less(xs[0], ys[k]) {
        assert ys[k] in ys;
        if ys[k] != x {
          var i :| 0 <= i < |xs[1..]| && xs[1..][i] == ys[k];
          assert xs[i + 1] == ys[k];
        }
      }
    } else {
      forall k | 0 <= k < |xs| ensures less(x, xs[k]) {}
    }
  }

  lemma {:induction false} SortByOk<T(!new)>(xs: seq<T>, less: (T, T) -> bool)
    requires Total(less) && Lr0.NoDup(xs)
    ensures Ordered(SortBy(xs, less), less) && |SortBy(xs, less)| == |xs|
    ensures forall y :: y in SortBy(xs, less) <==> y in xs
    decreases |xs|
  {
    if xs != [] {
      SortByOk(xs[1..], less);
      assert xs == [xs[0]] + xs[1..];
      PutOk(SortBy(xs[1..], less), xs[0], less);
    }
  }

  /** There is one way to put a set of things in order. */
  lemma {:induction false} OrderedOnce<T(!new)>(xs: seq<T>, ys: seq<T>, less: (T, T) -> bool)
    requires Total(less) && Ordered(xs, less) && Ordered(ys, less) && forall z :: z in xs <==> z in ys
    ensures xs == ys
    decreases |xs|
  {
    if ys != [] { assert ys[0] in ys; }
    if xs != [] {
      assert xs[0] in ys;
      assert ys[0] in xs;
      var i :| 0 <= i < |ys| && ys[i] == xs[0];
      var j :| 0 <= j < |xs| && xs[j] == ys[0];
      assert xs[0] == ys[0];
      forall z ensures z in xs[1..] <==> z in ys[1..] {
        TailHas(xs, less, z);
        TailHas(ys, less, z);
      }
      OrderedOnce(xs[1..], ys[1..], less);
    }
  }

  lemma TailHas<T(!new)>(xs: seq<T>, less: (T, T) -> bool, z: T)
    requires Total(less) && Ordered(xs, less) && xs != []
    ensures z in xs[1..] <==> z in xs && z != xs[0]
  {
    assert xs == [xs[0]] + xs[1..];
    if z in xs[1..] {
      var i :| 0 <= i < |xs[1..]| && xs[1..][i] == z;
      assert less(xs[0], xs[i + 1]);
    }
  }

  lemma {:induction false} OrderedNoDup<T(!new)>(xs: seq<T>, less: (T, T) -> bool)
    requires Total(less) && Ordered(xs, less)
    ensures Lr0.NoDup(xs)
  {
    forall i, j | 0 <= i < j < |xs| ensures xs[i] != xs[j] { assert less(xs[i], xs[j]); }
  }

  // ----- rows -----

  /** `iOrder`: the token row of a state comes before its other row. */
  function Index(x: Ax): nat { 2 * x.state + if x.token then 0 else 1 }

  /** `axset_compare`: larger rows first, and of equal ones the later. */
  function RowLess(z: Sizes, num: nat -> nat, lists: seq<seq<Action>>): (Ax, Ax) -> bool {
    (x: Ax, y: Ax) =>
      var n, m := |RowAt(z, num, lists, x)|, |RowAt(z, num, lists, y)|; n > m || (n == m && Index(x) > Index(y))
  }

  lemma RowLessTotal(z: Sizes, num: nat -> nat, lists: seq<seq<Action>>)
    ensures Total(RowLess(z, num, lists))
  {
    hide RowAt;
    forall x: Ax, y: Ax | Index(x) == Index(y) ensures x == y {}
  }

  /** The rows of the first `n` states, as they are listed. */
  function AllRows(n: nat): (axs: seq<Ax>)
    ensures |axs| == 2 * n && forall k :: 0 <= k < |axs| ==> axs[k] == Ax(k / 2, k % 2 == 0)
  {
    seq(2 * n, k requires 0 <= k => Ax(k / 2, k % 2 == 0))
  }

  /** The rows that have an action. */
  function Nonempty(z: Sizes, num: nat -> nat, lists: seq<seq<Action>>, axs: seq<Ax>): seq<Ax> {
    if axs == [] then []
    else
      (if RowAt(z, num, lists, axs[0]) != [] then [axs[0]] else []) + Nonempty(z, num, lists, axs[1..])
  }

  /** The order in which `ReportTable` packs the rows. */
  function PackOrder(z: Sizes, num: nat -> nat, lists: seq<seq<Action>>): seq<Ax> {
    SortBy(Nonempty(z, num, lists, AllRows(|lists|)), RowLess(z, num, lists))
  }

  lemma {:induction false} NonemptyAre(z: Sizes, num: nat -> nat, lists: seq<seq<Action>>, axs: seq<Ax>)
    requires Lr0.NoDup(axs)
    ensures var r := Nonempty(z, num, lists, axs);
      Lr0.NoDup(r) && forall x :: x in r <==> x in axs && RowAt(z, num, lists, x) != []
    decreases |axs|
  {
    hide RowAt;
    if axs != [] {
      NonemptyAre(z, num, lists, axs[1..]);
      assert axs == [axs[0]] + axs[1..];
    }
  }

  lemma PackOrderOk(z: Sizes, num: nat -> nat, lists: seq<seq<Action>>)
    ensures var axs := PackOrder(z, num, lists);
      Covering(z, num, lists, axs) && Ordered(axs, RowLess(z, num, lists))
  {
    hide RowAt, RowLess, Total;
    var all, less := AllRows(|lists|), RowLess(z, num, lists);
    NonemptyAre(z, num, lists, all);
    RowLessTotal(z, num, lists);
    SortByOk(Nonempty(z, num, lists, all), less);
    OrderedNoDup(PackOrder(z, num, lists), less);
    forall x: Ax ensures x in all <==> x.state < |lists| { RowListed(|lists|, x); }
    Covered(z, num, lists, PackOrder(z, num, lists));
  }

  lemma RowListed(n: nat, x: Ax)
    ensures x in AllRows(n) <==> x.state < n
  {
    if x.state < n { assert AllRows(n)[Index(x)] == x; }
  }

  lemma Covered(z: Sizes, num: nat -> nat, lists: seq<seq<Action>>, axs: seq<Ax>)
    requires Lr0.NoDup(axs) && forall x: Ax :: x in axs <==> x.state < |lists| && RowAt(z, num, lists, x) != []
    ensures Covering(z, num, lists, axs)
  {
    hide RowAt;
    forall k | 0 <= k < |axs| ensures axs[k].state < |lists| && RowAt(z, num, lists, axs[k]) != [] {
      assert axs[k] in axs;
    }
  }

  /** The row with more actions is packed before, of equal ones that of the later state, its tokens last. */
  lemma LargerRowsFirst(z: Sizes, num: nat -> nat, lists: seq<seq<Action>>, i: nat, j: nat)
    requires i < j < |PackOrder(z, num, lists)|
    ensures var x, y := PackOrder(z, num, lists)[i], PackOrder(z, num, lists)[j];
      var n, m := |RowAt(z, num, lists, x)|, |RowAt(z, num, lists, y)|;
      n > m || (n == m && (x.state > y.state || (x.state == y.state && !x.token && y.token)))
  {
    hide RowAt, PackOrder, Covering;
    PackOrderOk(z, num, lists);
    var x, y := PackOrder(z, num, lists)[i], PackOrder(z, num, lists)[j];
    assert RowLess(z, num, lists)(x, y);
  }

  // ----- states -----

  /** The actions of a state on symbols from `lo` up to `hi`. */
  function Choices(z: Sizes, lists: seq<seq<Action>>, q: nat, lo: nat, hi: nat): nat {
    if q < |lists| then |Row(z, (q: nat) => q, lists[q], lo, hi)| else 0
  }

  /** `stateResortCompare`: more transitions first, then more token actions, then the later. */
  function StateLess(z: Sizes, lists: seq<seq<Action>>): (nat, nat) -> bool {
    (p: nat, q: nat) =>
      var n, m := Choices(z, lists, p, z.nterm, z.nsym), Choices(z, lists, q, z.nterm, z.nsym);
      var k, l := Choices(z, lists, p, 0, z.nterm), Choices(z, lists, q, 0, z.nterm);
      n > m || (n == m && (k > l || (k == l && p > q)))
  }

  lemma StateLessTotal(z: Sizes, lists: seq<seq<Action>>)
    ensures Total(StateLess(z, lists))
  {
    hide Choices;
  }

  function From(lo: nat, n: nat): (r: seq<nat>)
    ensures |r| == n && forall i :: 0 <= i < n ==> r[i] == lo + i
  {
    seq(n, i requires 0 <= i => lo + i)
  }

  /** The order `ResortStates` puts the states in: the first stays. */
  function Resort(z: Sizes, lists: seq<seq<Action>>): seq<nat> {
    if lists == [] then [] else [0] + SortBy(From(1, |lists| - 1), StateLess(z, lists))
  }

  /** The states in that order. */
  ghost predicate InOrder(z: Sizes, lists: seq<seq<Action>>, order: seq<nat>) {
    |order| == |lists| && (order != [] ==> order[0] == 0 && Ordered(order[1..], StateLess(z, lists))) &&
    forall q: nat :: q in order <==> q < |lists|
  }

  lemma ResortOk(z: Sizes, lists: seq<seq<Action>>)
    ensures InOrder(z, lists, Resort(z, lists)) && Lr0.NoDup(Resort(z, lists))
  {
    hide StateLess, Total;
    if lists != [] {
      var ns, less := From(1, |lists| - 1), StateLess(z, lists);
      StateLessTotal(z, lists);
      SortByOk(ns, less);
      var rest := SortBy(ns, less);
      OrderedNoDup(rest, less);
      assert Resort(z, lists)[1..] == rest;
      forall q: nat ensures q in ns <==> 0 < q < |lists| {
        if 0 < q < |lists| { assert ns[q - 1] == q; }
      }
      forall i | 0 <= i < |rest| ensures rest[i] != 0 { assert rest[i] in rest; }
      assert forall q: nat :: q in [0] + rest <==> q == 0 || q in rest;
      assert Lr0.NoDup([0] + rest);
    }
  }

  /** The actions of a list that are written out, on symbols from `lo` up to `hi`. */
  function OnSymbols(acts: seq<Action>, lo: nat, hi: nat): set<nat> {
    set k: nat | k < |acts| && acts[k].kind in {SHIFT, REDUCE, ERROR, ACCEPT} && lo <= acts[k].sp < hi
  }

  lemma {:induction false} ChoicesAre(z: Sizes, num: nat -> nat, acts: seq<Action>, lo: nat, hi: nat)
    ensures |Row(z, num, acts, lo, hi)| == |OnSymbols(acts, lo, hi)|
    decreases |acts|
  {
    hide OnSymbols, CodeOf;
    if acts == [] {
      NoneOnSymbols(lo, hi);
    } else {
      var n := |acts| - 1;
      ChoicesAre(z, num, acts[..n], lo, hi);
      OnSymbolsNext(acts, lo, hi);
    }
  }

  lemma NoneOnSymbols(lo: nat, hi: nat)
    ensures OnSymbols([], lo, hi) == {}
  {}

  lemma OnSymbolsNext(acts: seq<Action>, lo: nat, hi: nat)
    requires acts != []
    ensures var n := |acts| - 1;
      var rest := OnSymbols(acts[..n], lo, hi);
      n !in rest && OnSymbols(acts, lo, hi) == if Emitted(acts[n]) && lo <= acts[n].sp < hi then rest + {n} else rest
  {
    var n := |acts| - 1;
    forall k: nat ensures k in OnSymbols(acts[..n], lo, hi) <==> k < n && k in OnSymbols(acts, lo, hi) {}
  }

  /**
   After the first, the state with actions on more nonterminals comes before, of equal ones that with actions on more
   tokens, and of equal ones again that of the higher number.
   */
  lemma MoreTransitionsFirst(z: Sizes, lists: seq<seq<Action>>, i: nat, j: nat)
    requires 1 <= i < j < |lists| == |Resort(z, lists)|
    requires Resort(z, lists)[i] < |lists| && Resort(z, lists)[j] < |lists|
    ensures var p, q := Resort(z, lists)[i], Resort(z, lists)[j];
      var n, m := |OnSymbols(lists[p], z.nterm, z.nsym)|, |OnSymbols(lists[q], z.nterm, z.nsym)|;
      var k, l := |OnSymbols(lists[p], 0, z.nterm)|, |OnSymbols(lists[q], 0, z.nterm)|;
      n > m || (n == m && (k > l || (k == l && p > q)))
  {
    hide Resort, Choices, OnSymbols;
    ResortOk(z, lists);
    var p, q := Resort(z, lists)[i], Resort(z, lists)[j];
    assert Resort(z, lists)[1..][i - 1] == p && Resort(z, lists)[1..][j - 1] == q;
    assert StateLess(z, lists)(p, q);
    StateChoices(z, lists, p);
    StateChoices(z, lists, q);
  }

  lemma StateChoices(z: Sizes, lists: seq<seq<Action>>, q: nat)
    requires q < |lists|
    ensures Choices(z, lists, q, z.nterm, z.nsym) == |OnSymbols(lists[q], z.nterm, z.nsym)|
    ensures Choices(z, lists, q, 0, z.nterm) == |OnSymbols(lists[q], 0, z.nterm)|
  {
    hide Row, OnSymbols;
    forall num: nat -> nat ensures |Row(z, num, lists[q], z.nterm, z.nsym)| == |OnSymbols(lists[q], z.nterm, z.nsym)| {
      ChoicesAre(z, num, lists[q], z.nterm, z.nsym);
    }
    forall num: nat -> nat ensures |Row(z, num, lists[q], 0, z.nterm)| == |OnSymbols(lists[q], 0, z.nterm)| {
      ChoicesAre(z, num, lists[q], 0, z.nterm);
    }
  }
}
