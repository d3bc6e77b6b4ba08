/**
 From the resolved actions of a state to the ones that are written out: the most frequent reduction
 becomes the default. Where an action was, the same action stays.
 */
module LrCompress {
  import opened Grammars
  import opened LrDriver
  import opened MergeSort
  import opened LrActions
  import Lr0

  // ----- sorting -----

  function KindIndex(k: Kind): nat {
    match k
    case SHIFT => 0
    case ACCEPT => 1
    case REDUCE => 2
    case ERROR => 3
    case SSCONFLICT => 4
    case SRCONFLICT => 5
    case RRCONFLICT => 6
    case SH_RESOLVED => 7
    case RD_RESOLVED => 8
    case NOT_USED => 9
  }

  /** `actioncmp`: by symbol, by type, reductions by rule; the rest by where they lie in memory. */
  function ActionCmp(a: Action, b: Action): int {
    if a.sp != b.sp then a.sp - b.sp
    else if a.kind != b.kind then KindIndex(a.kind) - KindIndex(b.kind)
    else if a.kind == REDUCE && a.arg != b.arg then a.arg - b.arg
    else b.address - a.address
  }

  lemma ActionCmpOrders()
    ensures Orders(ActionCmp)
  {}

  /** By symbol, then by kind in this order, then reductions by rule; of others that at the higher address is first. */
  lemma ListOrder(a: Action, b: Action)
    ensures var kinds := [SHIFT, ACCEPT, REDUCE, ERROR, SSCONFLICT, SRCONFLICT, RRCONFLICT, SH_RESOLVED, RD_RESOLVED,
                          NOT_USED];
      ActionCmp(a, b) < 0 <==>
      a.sp < b.sp ||
      (a.sp == b.sp &&
       ((exists i, j :: 0 <= i < j < |kinds| && a.kind == kinds[i] && b.kind == kinds[j]) ||
        (a.kind == b.kind &&
         if a.kind == REDUCE && a.arg != b.arg then a.arg < b.arg else a.address > b.address)))
  {
    var kinds := [SHIFT, ACCEPT, REDUCE, ERROR, SSCONFLICT, SRCONFLICT, RRCONFLICT, SH_RESOLVED, RD_RESOLVED, NOT_USED];
    assert kinds[KindIndex(a.kind)] == a.kind && kinds[KindIndex(b.kind)] == b.kind;
  }

  /** A permutation has the same elements, and no duplicates if the original had none. */
  lemma Permuted<T>(xs: seq<T>, ys: seq<T>)
    requires multiset(xs) == multiset(ys)
    ensures forall x :: x in ys <==> x in xs
    ensures Lr0.NoDup(xs) ==> Lr0.NoDup(ys)
  {
    forall x ensures x in ys <==> x in xs {
      assert x in ys <==> x in multiset(ys);
      assert x in xs <==> x in multiset(xs);
    }
    if Lr0.NoDup(xs) {
      forall i, j | 0 <= i < j < |ys| ensures ys[i] != ys[j] {
        Lr0.Once(xs, ys[j]);
        assert ys == ys[..j] + [ys[j]] + ys[j + 1..];
        assert ys[i] in ys[..j];
      }
    }
  }

  lemma SortedIsGrouped(acts: seq<Action>)
    requires Sorted(ActionCmp, acts)
    ensures Grouped(acts)
  {
    forall i, j | 0 <= i < j < |acts|
      ensures acts[i].sp <= acts[j].sp
      ensures acts[i].sp == acts[j].sp ==> !(acts[i].kind == REDUCE && acts[j].kind == SHIFT)
    {
      assert ActionCmp(acts[i], acts[j]) <= 0;
    }
  }

  /** `Action_sort`. */
  function SortActions(acts: seq<Action>): seq<Action> { Gathered(ActionCmp, Counted(ActionCmp, acts)) }

  lemma SortActionsOk(acts: seq<Action>)
    requires |acts| < Pow2(LISTSIZE)
    ensures var r := SortActions(acts);
      Sorted(ActionCmp, r) && Grouped(r) && multiset(r) == multiset(acts) && (forall a :: a in r <==> a in acts) &&
      (Lr0.NoDup(acts) ==> Lr0.NoDup(r)) && |r| == |acts|
  {
    ActionCmpOrders();
    SortsBelowLimit(ActionCmp, acts);
    SortedIsGrouped(SortActions(acts));
    Permuted(acts, SortActions(acts));
    SameSize(acts, SortActions(acts));
  }

  // ----- resolved lists -----

  /** The actions that are written out: `compute_action` gives a number. */
  predicate Emitted(a: Action) { a.kind in {SHIFT, REDUCE, ERROR, ACCEPT} }

  /** One action at most is written out for each symbol. */
  ghost predicate OneEach(acts: seq<Action>) {
    forall i, j :: 0 <= i < j < |acts| && Emitted(acts[i]) && Emitted(acts[j]) ==> acts[i].sp != acts[j].sp
  }

  ghost predicate Settled(g: Grammar, m: Automaton, q: nat, fws: Config -> set<nat>, acts: seq<Action>)
    requires q < |m.configs| && |m.goto| == |m.configs|
  {
    OneEach(acts) && (forall a :: a in acts && Emitted(a) ==> ActionOk(g, m, q, fws, a)) &&
    (forall n :: n >= g.nterm && One(n) in m.goto[q] ==> Has(acts, n, SHIFT, m.goto[q][One(n)])) &&
    (q == 0 ==> HasKind(acts, g.start, ACCEPT))
  }

  /** The resolved list of a state: sorted, then every pair on one symbol compared. */
  function Finished(p: Precedence, acts: seq<Action>): seq<Action> { Resolved(p, SortActions(acts), 0) }

  /** An action that is still written out after resolution is the one that stood there before. */
  lemma WeakenedAt(xs: seq<Action>, ys: seq<Action>, i: nat)
    requires Weakened(xs, ys) && i < |ys| && Emitted(ys[i])
    ensures xs[i] == ys[i] && xs[i] in xs
  {
    assert ys[i] == xs[i].(kind := ys[i].kind);
  }

  /** On a nonterminal there is one action in the sorted list, which resolution leaves alone. */
  lemma NonterminalStays(g: Grammar, m: Automaton, q: nat, fws: Config -> set<nat>, p: Precedence, acts: seq<Action>,
                         a: Action)
    requires q < |m.configs| && |m.goto| == |m.configs| && ActionsOk(g, m, q, fws, acts) && |acts| < Pow2(LISTSIZE)
    requires a in acts && a.sp >= g.nterm
    ensures a in Finished(p, acts)
  {
    hide Resolved, SortActions, ActionOk;
    var xs, ys := SortActions(acts), Finished(p, acts);
    SortActionsOk(acts);
    ResolvedWeakens(p, xs, 0);
    var i :| 0 <= i < |xs| && xs[i] == a;
    assert ys[i] == xs[i].(kind := ys[i].kind);
    if Live(a) {
      assert On(xs, a.sp, i);
      var f := ConflictsResolved(p, xs, a.sp);
      var k := Left(p, xs, a.sp, f, f + 1);
      assert On(ys, a.sp, k);
      assert ys[k] == xs[k].(kind := ys[k].kind) && xs[k] in acts;
      assert xs[k] == a && k == i;
    }
  }

  lemma FinishedOneEach(g: Grammar, m: Automaton, q: nat, fws: Config -> set<nat>, p: Precedence, acts: seq<Action>)
    requires q < |m.configs| && |m.goto| == |m.configs| && ActionsOk(g, m, q, fws, acts) && |acts| < Pow2(LISTSIZE)
    requires g.start >= g.nterm
    ensures OneEach(Finished(p, acts))
  {
    hide Resolved, SortActions;
    var xs, ys := SortActions(acts), Finished(p, acts);
    SortActionsOk(acts);
    ResolvedWeakens(p, xs, 0);
    forall i, j | 0 <= i < j < |ys| && Emitted(ys[i]) && Emitted(ys[j]) ensures ys[i].sp != ys[j].sp {
      WeakenedAt(xs, ys, i);
      WeakenedAt(xs, ys, j);
      assert ActionOk(g, m, q, fws, xs[i]) && ActionOk(g, m, q, fws, xs[j]);
      if ys[i].sp < g.nterm {
        assert On(xs, ys[i].sp, i);
        var f := ConflictsResolved(p, xs, ys[i].sp);
        assert !(On(ys, ys[i].sp, i) && On(ys, ys[i].sp, j));
      }
    }
  }

  lemma FinishedSettled(g: Grammar, m: Automaton, q: nat, fws: Config -> set<nat>, p: Precedence, acts: seq<Action>)
    requires q < |m.configs| && |m.goto| == |m.configs| && ActionsOk(g, m, q, fws, acts) && |acts| < Pow2(LISTSIZE)
    requires g.start >= g.nterm
    ensures Settled(g, m, q, fws, Finished(p, acts))
  {
    hide Resolved, SortActions, OneEach, ActionOk;
    var xs, ys := SortActions(acts), Finished(p, acts);
    SortActionsOk(acts);
    ResolvedWeakens(p, xs, 0);
    FinishedOneEach(g, m, q, fws, p, acts);
    forall a | a in ys && Emitted(a) ensures ActionOk(g, m, q, fws, a) {
      var i :| 0 <= i < |ys| && ys[i] == a;
      WeakenedAt(xs, ys, i);
    }
    forall n | n >= g.nterm && One(n) in m.goto[q] ensures Has(ys, n, SHIFT, m.goto[q][One(n)]) {
      assert Covers(One(n), n);
      var a :| a in acts && a.sp == n && a.kind == SHIFT && a.arg == m.goto[q][One(n)];
      NonterminalStays(g, m, q, fws, p, acts, a);
    }
    if q == 0 {
      var a :| a in acts && a.sp == g.start && a.kind == ACCEPT;
      NonterminalStays(g, m, q, fws, p, acts, a);
    }
  }

  lemma NothingAdded(p: Precedence, acts: seq<Action>)
    requires |acts| < Pow2(LISTSIZE)
    ensures forall a :: a in Finished(p, acts) && Emitted(a) ==> a in acts
  {
    hide Resolved, SortActions, Grouped, Sorted;
    var xs, ys := SortActions(acts), Finished(p, acts);
    SortActionsOk(acts);
    ResolvedWeakens(p, xs, 0);
    forall a | a in ys && Emitted(a) ensures a in acts {
      var i :| 0 <= i < |ys| && ys[i] == a;
      WeakenedAt(xs, ys, i);
    }
  }

  /** Every token on which a state had an action still has one: a live one, and one that was there. */
  lemma TokensKept(g: Grammar, m: Automaton, q: nat, fws: Config -> set<nat>, p: Precedence, acts: seq<Action>, t: nat)
    requires q < |m.configs| && |m.goto| == |m.configs| && ActionsOk(g, m, q, fws, acts) && |acts| < Pow2(LISTSIZE)
    requires t < g.nterm <= g.start
    ensures (exists a :: a in acts && a.sp == t) <==> exists a :: a in Finished(p, acts) && a.sp == t && Emitted(a)
    ensures forall a :: a in Finished(p, acts) && Emitted(a) ==> a in acts
  {
    hide Resolved, SortActions, Grouped, Sorted, ActionsOk, Finished;
    NothingAdded(p, acts);
    if a :| a in acts && a.sp == t { var b := WinnerOf(g, m, q, fws, p, acts, a); }
  }

  /** An action on a token leaves one on that token. */
  lemma WinnerOf(g: Grammar, m: Automaton, q: nat, fws: Config -> set<nat>, p: Precedence, acts: seq<Action>, a: Action)
    returns (b: Action)
    requires q < |m.configs| && |m.goto| == |m.configs| && ActionsOk(g, m, q, fws, acts) && |acts| < Pow2(LISTSIZE)
    requires a in acts && a.sp < g.nterm <= g.start
    ensures b in Finished(p, acts) && b.sp == a.sp && Emitted(b)
  {
    hide Resolved, SortActions, Grouped, Sorted;
    var xs, ys := SortActions(acts), Finished(p, acts);
    SortActionsOk(acts);
    assert ActionOk(g, m, q, fws, a);
    var i :| 0 <= i < |xs| && xs[i] == a;
    assert On(xs, a.sp, i);
    var f := ConflictsResolved(p, xs, a.sp);
    var k := Left(p, xs, a.sp, f, f + 1);
    assert On(ys, a.sp, k);
    b := ys[k];
  }

  // ----- which of the actions is left -----

  /** Two live actions on one symbol in the order of the list: shifts first, then reductions by rule. */
  lemma ByRule(xs: seq<Action>, i: int, j: int)
    requires Sorted(ActionCmp, xs) && 0 <= i < |xs| && 0 <= j < |xs| && xs[i].sp == xs[j].sp
    ensures i <= j && xs[i].kind == REDUCE && xs[j].kind == REDUCE ==> xs[i].arg <= xs[j].arg
  {
    if i < j { assert ActionCmp(xs[i], xs[j]) <= 0; }
  }

  /** The first action on a symbol is left if and only if no other beats it. */
  lemma FirstStays(p: Precedence, acts: seq<Action>, s: nat, f: nat)
    requires |acts| < Pow2(LISTSIZE) && FirstOn(SortActions(acts), s, f)
    ensures Left(p, SortActions(acts), s, f, f + 1) == f <==>
      forall y :: y in acts && y.sp == s && Live(y) ==> !Beats(p, y, SortActions(acts)[f])
  {
    hide SortActions, Sorted, Beats;
    var xs := SortActions(acts);
    SortActionsOk(acts);
    FirstLeft(p, xs, s, f, f + 1);
    NotItself(p, xs[f]);
    if Left(p, xs, s, f, f + 1) == f {
      forall y | y in acts && y.sp == s && Live(y) ensures !Beats(p, y, xs[f]) {
        var l :| 0 <= l < |xs| && xs[l] == y;
        assert On(xs, s, l);
      }
    } else {
      var l :| f + 1 <= l && On(xs, s, l) && Beats(p, xs[l], xs[f]);
      assert xs[l] in acts;
    }
  }

  lemma NotItself(p: Precedence, x: Action)
    ensures !Beats(p, x, x)
  {}

  /** An action has a place in the sorted list. */
  lemma SortedPlace(acts: seq<Action>, x: Action) returns (i: nat)
    requires |acts| < Pow2(LISTSIZE) && x in acts
    ensures i < |SortActions(acts)| && SortActions(acts)[i] == x
  {
    SortActionsOk(acts);
    i :| 0 <= i < |SortActions(acts)| && SortActions(acts)[i] == x;
  }

  lemma SortedFrom(acts: seq<Action>, i: nat)
    requires |acts| < Pow2(LISTSIZE) && i < |SortActions(acts)|
    ensures SortActions(acts)[i] in acts
  {
    SortActionsOk(acts);
  }

  lemma SortedGroups(acts: seq<Action>)
    requires |acts| < Pow2(LISTSIZE)
    ensures Grouped(SortActions(acts)) && Sorted(ActionCmp, SortActions(acts))
  {
    SortActionsOk(acts);
  }

  lemma LiveThere(p: Precedence, acts: seq<Action>, s: nat, k: nat)
    requires On(Finished(p, acts), s, k)
    ensures k < |SortActions(acts)| && Finished(p, acts)[k] == SortActions(acts)[k]
  {
    hide Resolved, SortActions;
    ResolvedWeakens(p, SortActions(acts), 0);
    WeakenedAt(SortActions(acts), Finished(p, acts), k);
  }

  /** The one action on the symbol that is still live. */
  lemma LeftOne(p: Precedence, acts: seq<Action>, s: nat) returns (f: nat)
    requires |acts| < Pow2(LISTSIZE) && exists x :: x in acts && x.sp == s && Live(x)
    ensures FirstOn(SortActions(acts), s, f) && SortActions(acts)[f] in acts
    ensures var a := SortActions(acts)[Left(p, SortActions(acts), s, f, f + 1)];
      a in acts && forall y :: y in Finished(p, acts) && y.sp == s && Live(y) <==> y == a
  {
    hide Resolved, SortActions, Sorted, Grouped, Left;
    var xs, ys := SortActions(acts), Finished(p, acts);
    SortedGroups(acts);
    var x :| x in acts && x.sp == s && Live(x);
    var i := SortedPlace(acts, x);
    assert On(xs, s, i);
    f := ConflictsResolved(p, xs, s);
    var k := Left(p, xs, s, f, f + 1);
    assert On(ys, s, k);
    LiveThere(p, acts, s, k);
    SortedFrom(acts, k);
    SortedFrom(acts, f);
    forall y | y in ys && y.sp == s && Live(y) ensures y == xs[k] {
      var m :| 0 <= m < |ys| && ys[m] == y;
      assert On(ys, s, m);
    }
  }

  /**
   On a token with a shift, a shift is left if and only if no reduction beats it: none has both precedences known and
   the higher one, or the same one where the token is left-associative.
   */
  lemma ShiftLeft(p: Precedence, acts: seq<Action>, s: nat)
    requires |acts| < Pow2(LISTSIZE) && exists x :: x in acts && x.sp == s && x.kind == SHIFT
    ensures (exists a :: a in Finished(p, acts) && a.sp == s && a.kind == SHIFT) <==>
      forall r :: r in acts && r.sp == s && r.kind == REDUCE ==>
        p.prec(s) < 0 || p.precsym(r.arg).None? || p.prec(p.precsym(r.arg).value) < 0 ||
        p.prec(p.precsym(r.arg).value) < p.prec(s) ||
        (p.prec(p.precsym(r.arg).value) == p.prec(s) && p.assoc(s) != LEFT)
  {
    hide Finished, SortActions, Sorted, Grouped, Left, Beats;
    var xs := SortActions(acts);
    SortedGroups(acts);
    var f := LeftOne(p, acts, s);
    var x :| x in acts && x.sp == s && x.kind == SHIFT;
    var i := SortedPlace(acts, x);
    FirstIsShift(xs, s, f, i);
    FirstStays(p, acts, s, f);
    LeftBeats(p, xs, s, f, f + 1);
    var a := xs[Left(p, xs, s, f, f + 1)];
    assert a in Finished(p, acts) && a.sp == s && Live(a);
    ShiftStands(p, acts, xs[f]);
  }

  /** What it means that nothing beats a shift. */
  lemma ShiftStands(p: Precedence, acts: seq<Action>, x: Action)
    requires x.kind == SHIFT
    ensures (forall y :: y in acts && y.sp == x.sp && Live(y) ==> !Beats(p, y, x)) <==>
      forall r :: r in acts && r.sp == x.sp && r.kind == REDUCE ==>
        p.prec(x.sp) < 0 || p.precsym(r.arg).None? || p.prec(p.precsym(r.arg).value) < 0 ||
        p.prec(p.precsym(r.arg).value) < p.prec(x.sp) ||
        (p.prec(p.precsym(r.arg).value) == p.prec(x.sp) && p.assoc(x.sp) != LEFT)
  {
    hide Beats;
    forall r | r in acts && r.sp == x.sp && r.kind == REDUCE
      ensures !Beats(p, r, x) <==>
        p.prec(x.sp) < 0 || p.precsym(r.arg).None? || p.prec(p.precsym(r.arg).value) < 0 ||
        p.prec(p.precsym(r.arg).value) < p.prec(x.sp) ||
        (p.prec(p.precsym(r.arg).value) == p.prec(x.sp) && p.assoc(x.sp) != LEFT)
    {
      ReductionBeats(p, r, x);
    }
    forall y | y in acts && y.kind != REDUCE ensures !Beats(p, y, x) { OnlyReductions(p, y, x); }
  }

  lemma ReductionBeats(p: Precedence, r: Action, x: Action)
    requires r.kind == REDUCE && x.kind == SHIFT
    ensures Beats(p, r, x) <==>
      p.prec(x.sp) >= 0 && p.precsym(r.arg).Some? && p.prec(p.precsym(r.arg).value) >= 0 &&
      (p.prec(p.precsym(r.arg).value) > p.prec(x.sp) ||
       (p.prec(p.precsym(r.arg).value) == p.prec(x.sp) && p.assoc(x.sp) == LEFT))
  {}

  lemma OnlyReductions(p: Precedence, y: Action, x: Action)
    requires y.kind != REDUCE
    ensures !Beats(p, y, x)
  {}

  lemma RuleBeats(p: Precedence, r: Action, x: Action)
    requires r.kind == REDUCE && x.kind == REDUCE
    ensures Beats(p, r, x) <==>
      p.precsym(x.arg).Some? && p.prec(p.precsym(x.arg).value) >= 0 && p.precsym(r.arg).Some? &&
      p.prec(p.precsym(r.arg).value) > p.prec(p.precsym(x.arg).value)
  {}

  /** On a token without a shift, the lowest rule is left if and only if no other's precedence is higher, both known. */
  lemma RuleLeft(p: Precedence, acts: seq<Action>, x: Action)
    requires |acts| < Pow2(LISTSIZE) && Lr0.NoDup(acts) && x in acts && x.kind == REDUCE
    requires forall y :: y in acts && y.sp == x.sp && Live(y) ==> y.kind == REDUCE && (y == x || x.arg < y.arg)
    ensures x in Finished(p, acts) <==>
      forall r :: r in acts && r.sp == x.sp && r.kind == REDUCE ==>
        p.precsym(x.arg).None? || p.prec(p.precsym(x.arg).value) < 0 || p.precsym(r.arg).None? ||
        p.prec(p.precsym(r.arg).value) <= p.prec(p.precsym(x.arg).value)
  {
    hide Finished, SortActions, Sorted, Grouped, Left, Beats;
    var xs, s := SortActions(acts), x.sp;
    SortActionsOk(acts);
    var f := LeftOne(p, acts, s);
    var i := SortedPlace(acts, x);
    assert On(xs, s, i) && f <= i && Live(xs[f]);
    ByRule(xs, f, i);
    assert xs[f] == x;
    FirstStays(p, acts, s, f);
    var k := Left(p, xs, s, f, f + 1);
    assert xs[k] == x ==> k == f;
    forall r | r in acts && r.sp == s && r.kind == REDUCE
      ensures !Beats(p, r, x) <==>
        p.precsym(x.arg).None? || p.prec(p.precsym(x.arg).value) < 0 || p.precsym(r.arg).None? ||
        p.prec(p.precsym(r.arg).value) <= p.prec(p.precsym(x.arg).value)
    {
      RuleBeats(p, r, x);
    }
  }

  lemma FirstIsShift(xs: seq<Action>, s: nat, f: int, i: int)
    requires Grouped(xs) && FirstOn(xs, s, f) && On(xs, s, i) && xs[i].kind == SHIFT
    ensures xs[f].kind == SHIFT
  {}

  /** What is left in place of the first is a reduction. */
  lemma {:induction false} LeftBeats(p: Precedence, acts: seq<Action>, s: nat, c: nat, j: nat)
    requires On(acts, s, c)
    ensures Left(p, acts, s, c, j) != c ==> acts[Left(p, acts, s, c, j)].kind == REDUCE
    decreases |acts| - j
  {
    if j < |acts| {
      if On(acts, s, j) && Beats(p, acts[j], acts[c]) {
        LeftBeats(p, acts, s, j, j + 1);
      } else {
        LeftBeats(p, acts, s, c, j + 1);
      }
    }
  }

  /**
   Where the token and all rules that could be reduced have precedences, a reduction that is left has the highest
   precedence of them, and is by the first of the rules that have it.
   */
  lemma HighestRule(p: Precedence, acts: seq<Action>, a: Action, r: Action)
    requires |acts| < Pow2(LISTSIZE) && a in Finished(p, acts) && a.kind == REDUCE
    requires forall x :: x in acts && x.sp == a.sp && Live(x) ==> HasRank(p, x)
    requires r in acts && r.sp == a.sp && r.kind == REDUCE
    ensures p.precsym(a.arg).Some? && p.precsym(r.arg).Some?
    ensures var n, m := p.prec(p.precsym(r.arg).value), p.prec(p.precsym(a.arg).value);
      n < m || (n == m && a.arg <= r.arg)
  {
    hide Finished, SortActions, Sorted, Grouped, AllRanked, Stands;
    var xs, s := SortActions(acts), a.sp;
    SortActionsOk(acts);
    var f := LeftOne(p, acts, s);
    var i := Left(p, xs, s, f, f + 1);
    assert xs[i] == a;
    var l := SortedPlace(acts, r);
    assert On(xs, s, i) && On(xs, s, l);
    AllHaveRanks(p, acts, xs, s);
    FirstStands(p, xs, s, f);
    HighestLeft(p, xs, s, f, f + 1);
    AtMost(p, xs, s, i, l);
    ByRule(xs, i, l);
  }

  lemma AllHaveRanks(p: Precedence, acts: seq<Action>, xs: seq<Action>, s: nat)
    requires forall x :: x in acts && x.sp == s && Live(x) ==> HasRank(p, x)
    requires forall x :: x in xs ==> x in acts
    ensures AllRanked(p, xs, s)
  {
    forall m | On(xs, s, m) ensures HasRank(p, xs[m]) { assert xs[m] in xs; }
  }

  lemma AtMost(p: Precedence, xs: seq<Action>, s: nat, c: nat, l: nat)
    requires On(xs, s, c) && xs[c].kind == REDUCE && Stands(p, xs, s, c, |xs|) && On(xs, s, l) && xs[l].kind == REDUCE
    ensures HasRank(p, xs[l]) && HasRank(p, xs[c])
    ensures Rank(p, xs[l]) < Rank(p, xs[c]) || (Rank(p, xs[l]) == Rank(p, xs[c]) && c <= l)
  {}

  lemma FirstStands(p: Precedence, acts: seq<Action>, s: nat, f: int)
    requires FirstOn(acts, s, f) && AllRanked(p, acts, s)
    ensures Stands(p, acts, s, f, f + 1)
  {}

  // ----- compression -----

  predicate IsReduce(a: Action, r: nat) { a.kind == REDUCE && a.arg == r }

  function CountOf(acts: seq<Action>, r: nat): nat {
    if acts == [] then 0 else (if IsReduce(acts[0], r) then 1 else 0) + CountOf(acts[1..], r)
  }

  lemma {:induction false} CountPositive(acts: seq<Action>, r: nat)
    ensures CountOf(acts, r) > 0 <==> exists a :: a in acts && IsReduce(a, r)
    decreases |acts|
  {
    if acts != [] {
      CountPositive(acts[1..], r);
      assert forall a :: a in acts <==> a == acts[0] || a in acts[1..];
    }
  }

  lemma {:induction false} CountSuffix(acts: seq<Action>, i: nat, r: nat)
    requires i <= |acts|
    ensures CountOf(acts[i..], r) <= CountOf(acts, r)
    ensures (forall k :: 0 <= k < i ==> !IsReduce(acts[k], r)) ==> CountOf(acts[i..], r) == CountOf(acts, r)
    decreases i
  {
    if i > 0 {
      CountSuffix(acts[1..], i - 1, r);
      assert acts[1..][i - 1..] == acts[i..];
      assert acts[0..] == acts;
    } else {
      assert acts[0..] == acts;
    }
  }

  /** The places in a list where the rule is reduced by. */
  function ReducedAt(acts: seq<Action>, r: nat): set<int> {
    set k | 0 <= k < |acts| && acts[k].kind == REDUCE && acts[k].arg == r
  }

  lemma {:induction false} CountIs(acts: seq<Action>, r: nat)
    ensures CountOf(acts, r) == |ReducedAt(acts, r)|
    decreases |acts|
  {
    hide ReducedAt, CountOf;
    if acts == [] {
      NoReduction(r);
    } else {
      var n := |acts| - 1;
      CountIs(acts[..n], r);
      CountLast(acts, r);
      ReducedLast(acts, r);
    }
  }

  lemma NoReduction(r: nat)
    ensures ReducedAt([], r) == {} && CountOf([], r) == 0
  {}

  lemma {:induction false} CountLast(acts: seq<Action>, r: nat)
    requires acts != []
    ensures CountOf(acts, r) == CountOf(acts[..|acts| - 1], r) + if IsReduce(acts[|acts| - 1], r) then 1 else 0
    decreases |acts|
  {
    var n := |acts| - 1;
    if n == 0 {
      assert acts[1..] == [];
    } else {
      CountLast(acts[1..], r);
      assert acts[1..][..n - 1] == acts[..n][1..];
    }
  }

  lemma ReducedLast(acts: seq<Action>, r: nat)
    requires acts != []
    ensures var n := |acts| - 1;
      n !in ReducedAt(acts[..n], r) &&
      ReducedAt(acts, r) == if IsReduce(acts[n], r) then ReducedAt(acts[..n], r) + {n} else ReducedAt(acts[..n], r)
  {}

  /**
   A rule with its number of reductions, and none more frequent among those not of the start symbol; of equally
   frequent ones the first in the list.
   */
  ghost predicate MostFrequent(acts: seq<Action>, isStart: nat -> bool, n: nat, r: nat) {
    (n > 0 ==> !isStart(r) && CountOf(acts, r) == n) && (forall s :: !isStart(s) ==> CountOf(acts, s) <= n) &&
    FirstOfEqual(acts, isStart, n, r, |acts|)
  }

  ghost predicate FirstOfEqual(acts: seq<Action>, isStart: nat -> bool, n: nat, r: nat, upto: nat)
    requires upto <= |acts|
  {
    forall k :: (0 <= k < upto && n > 0 && acts[k].kind == REDUCE && !isStart(acts[k].arg) &&
                 CountOf(acts, acts[k].arg) == n) ==>
      exists l :: 0 <= l <= k && IsReduce(acts[l], r)
  }

  /** The search for the default of `CompressTables`. */
  method FindBest(acts: seq<Action>, isStart: nat -> bool) returns (nbest: nat, rbest: nat)
    ensures MostFrequent(acts, isStart, nbest, rbest)
  {
    nbest, rbest := 0, 0;
    for i := 0 to |acts|
      invariant nbest > 0 ==> !isStart(rbest) && CountOf(acts, rbest) == nbest
      invariant forall k :: 0 <= k < i && acts[k].kind == REDUCE && !isStart(acts[k].arg) ==>
        CountOf(acts, acts[k].arg) <= nbest
      invariant FirstOfEqual(acts, isStart, nbest, rbest, i)
      invariant nbest > 0 ==> exists l :: 0 <= l < i && IsReduce(acts[l], rbest)
    {
      if acts[i].kind == REDUCE && !isStart(acts[i].arg) && !(nbest > 0 && acts[i].arg == rbest) {
        var r := acts[i].arg;
        var n := 1;
        for j := i + 1 to |acts|
          invariant n + CountOf(acts[j..], r) == CountOf(acts[i..], r)
        {
          assert acts[j..][0] == acts[j] && acts[j..][1..] == acts[j + 1..];
          if acts[j].kind == REDUCE && acts[j].arg == r { n := n + 1; }
        }
        assert acts[|acts|..] == [];
        CountSuffix(acts, i, r);
        if n > nbest { nbest, rbest := n, r; }
      }
    }
    forall s | !isStart(s) ensures CountOf(acts, s) <= nbest {
      CountPositive(acts, s);
    }
  }

  /** The first reduction by `r` becomes the default, the others are dropped. */
  function Defaulted(acts: seq<Action>, r: nat, nsym: nat, seen: bool): (ds: seq<Action>)
    ensures |ds| == |acts|
  {
    if acts == [] then []
    else if IsReduce(acts[0], r) then
      [if seen then acts[0].(kind := NOT_USED) else acts[0].(sp := nsym)] + Defaulted(acts[1..], r, nsym, true)
    else [acts[0]] + Defaulted(acts[1..], r, nsym, seen)
  }

  lemma {:induction false} DefaultedAt(acts: seq<Action>, r: nat, nsym: nat, seen: bool, k: nat)
    requires k < |acts|
    ensures var d := Defaulted(acts, r, nsym, seen)[k];
      if !IsReduce(acts[k], r) then d == acts[k]
      else if seen || exists l :: 0 <= l < k && IsReduce(acts[l], r) then d == acts[k].(kind := NOT_USED)
      else d == acts[k].(sp := nsym)
    decreases |acts|
  {
    if k > 0 {
      DefaultedAt(acts[1..], r, nsym, seen || IsReduce(acts[0], r), k - 1);
      if !seen && !IsReduce(acts[0], r) {
        if l :| 0 <= l < k && IsReduce(acts[l], r) { assert IsReduce(acts[1..][l - 1], r); }
      }
    }
  }

  /** `CompressTables` for one state; `nbest` is 0 when there is nothing to make a default. */
  function Compressed(acts: seq<Action>, nbest: nat, rbest: nat, nsym: nat): seq<Action> {
    if nbest == 0 then acts else SortActions(Defaulted(acts, rbest, nsym, false))
  }

  // ----- what a state does on a token -----

  datatype Does = Does(kind: Kind, arg: nat)

  ghost predicate Written(acts: seq<Action>, sp: nat, d: Does) {
    exists a :: a in acts && Emitted(a) && a.sp == sp && a.kind == d.kind && a.arg == d.arg
  }

  /** The action on a token: its own, else the default, else an error. */
  ghost predicate OnToken(acts: seq<Action>, nsym: nat, t: nat, d: Does) {
    Written(acts, t, d) ||
    ((forall e :: !Written(acts, t, e)) &&
     (Written(acts, nsym, d) || ((forall e :: !Written(acts, nsym, e)) && d == Does(ERROR, 0))))
  }

  lemma DefaultedWritten(acts: seq<Action>, r: nat, nsym: nat, sp: nat, d: Does)
    requires forall a :: a in acts ==> a.sp < nsym
    ensures var ds := Defaulted(acts, r, nsym, false);
      Written(ds, sp, d) <==>
      if sp == nsym then d == Does(REDUCE, r) && exists a :: a in acts && IsReduce(a, r)
      else Written(acts, sp, d) && d != Does(REDUCE, r)
  {
    var ds := Defaulted(acts, r, nsym, false);
    if Written(ds, sp, d) {
      var a :| a in ds && Emitted(a) && a.sp == sp && a.kind == d.kind && a.arg == d.arg;
      var k :| 0 <= k < |ds| && ds[k] == a;
      DefaultedAt(acts, r, nsym, false, k);
      assert acts[k] in acts;
    }
    if sp != nsym && Written(acts, sp, d) && d != Does(REDUCE, r) {
      var a :| a in acts && Emitted(a) && a.sp == sp && a.kind == d.kind && a.arg == d.arg;
      var k :| 0 <= k < |acts| && acts[k] == a;
      DefaultedAt(acts, r, nsym, false, k);
      assert ds[k] in ds;
    }
    if sp == nsym && d == Does(REDUCE, r) && exists a :: a in acts && IsReduce(a, r) {
      var k := FirstReduce(acts, r);
      DefaultedAt(acts, r, nsym, false, k);
      assert ds[k] in ds;
    }
  }

  lemma {:induction false} FirstReduce(acts: seq<Action>, r: nat) returns (k: nat)
    requires exists a :: a in acts && IsReduce(a, r)
    ensures k < |acts| && IsReduce(acts[k], r) && forall l :: 0 <= l < k ==> !IsReduce(acts[l], r)
  {
    k := 0;
    while !IsReduce(acts[k], r)
      invariant k < |acts| && forall l :: 0 <= l < k ==> !IsReduce(acts[l], r)
      invariant exists l :: k <= l < |acts| && IsReduce(acts[l], r)
      decreases |acts| - k
    {
      k := k + 1;
    }
  }

  lemma WrittenOne(acts: seq<Action>, sp: nat, d: Does, e: Does)
    requires OneEach(acts) && Written(acts, sp, d) && Written(acts, sp, e)
    ensures d == e
  {
    var a :| a in acts && Emitted(a) && a.sp == sp && a.kind == d.kind && a.arg == d.arg;
    var b :| b in acts && Emitted(b) && b.sp == sp && b.kind == e.kind && b.arg == e.arg;
    var i :| 0 <= i < |acts| && acts[i] == a;
    var j :| 0 <= j < |acts| && acts[j] == b;
    assert i == j;
  }

  /**
   Compression keeps every action a token had; a token without one gets an error, or a reduction the state makes
   on some other token, by a rule that is not the start symbol's.
   */
  lemma CompressionKeepsActions(acts: seq<Action>, isStart: nat -> bool, nbest: nat, rbest: nat, nsym: nat, t: nat,
                                d: Does)
    requires OneEach(acts) && MostFrequent(acts, isStart, nbest, rbest) && |acts| < Pow2(LISTSIZE) && t < nsym
    requires forall a :: a in acts ==> a.sp < nsym
    ensures Written(acts, t, d) ==> OnToken(Compressed(acts, nbest, rbest, nsym), nsym, t, d)
    ensures (forall e :: !Written(acts, t, e)) && OnToken(Compressed(acts, nbest, rbest, nsym), nsym, t, d) ==>
      d == Does(ERROR, 0) || (d.kind == REDUCE && !isStart(d.arg) && exists a :: a in acts && IsReduce(a, d.arg))
  {
    hide FirstOfEqual, CountOf, Sorted, Grouped, Defaulted, SortActions;
    CountPositive(acts, rbest);
    var cs := Compressed(acts, nbest, rbest, nsym);
    if nbest == 0 {
      assert forall e :: !Written(acts, nsym, e);
    } else {
      var ds := Defaulted(acts, rbest, nsym, false);
      SortActionsOk(ds);
      forall sp, e ensures Written(cs, sp, e) <==> Written(ds, sp, e) {}
      forall e { DefaultedWritten(acts, rbest, nsym, t, e); }
      forall e { DefaultedWritten(acts, rbest, nsym, nsym, e); }
      if Written(acts, t, d) && d == Does(REDUCE, rbest) {
        forall e | Written(acts, t, e) ensures e == d { WrittenOne(acts, t, d, e); }
      }
    }
  }

  /** What the compressed actions of a state still promise. */
  ghost predicate Packable(g: Grammar, m: Automaton, q: nat, fws: Config -> set<nat>, acts: seq<Action>)
    requires q < |m.configs| && |m.goto| == |m.configs|
  {
    OneEach(acts) &&
    (forall a :: a in acts && Emitted(a) && a.sp != g.nsym ==> ActionOk(g, m, q, fws, a)) &&
    (forall a :: a in acts && Emitted(a) && a.sp == g.nsym ==>
       a.kind == REDUCE && a.arg < |g.rules| && Config(a.arg, |g.rules[a.arg].rhs|) in m.configs[q]) &&
    (forall n :: n >= g.nterm && One(n) in m.goto[q] ==> Has(acts, n, SHIFT, m.goto[q][One(n)])) &&
    (q == 0 ==> HasKind(acts, g.start, ACCEPT))
  }

  lemma DefaultedOneEach(acts: seq<Action>, r: nat, nsym: nat)
    requires OneEach(acts) && forall a :: a in acts ==> a.sp < nsym
    ensures OneEach(Defaulted(acts, r, nsym, false))
  {
    var ds := Defaulted(acts, r, nsym, false);
    forall i, j | 0 <= i < j < |ds| && Emitted(ds[i]) && Emitted(ds[j]) ensures ds[i].sp != ds[j].sp {
      DefaultedAt(acts, r, nsym, false, i);
      DefaultedAt(acts, r, nsym, false, j);
      assert acts[i] in acts && acts[j] in acts;
    }
  }

  /** A permutation of a list with one action each has one action each. */
  lemma PermutedOneEach(xs: seq<Action>, ys: seq<Action>)
    requires multiset(xs) == multiset(ys) && OneEach(xs)
    ensures OneEach(ys)
  {
    forall i, j | 0 <= i < j < |ys| && Emitted(ys[i]) && Emitted(ys[j]) ensures ys[i].sp != ys[j].sp {
      assert ys == ys[..j] + [ys[j]] + ys[j + 1..];
      assert ys[i] in ys[..j];
      assert multiset(ys)[ys[i]] >= 1 && multiset(ys)[ys[j]] >= 1;
      EmittedOnce(xs, ys[j]);
      assert ys[i] in multiset(xs) && ys[j] in multiset(xs);
      if ys[i] != ys[j] { DifferentSymbols(xs, ys[i], ys[j]); }
    }
  }

  lemma DifferentSymbols(xs: seq<Action>, a: Action, b: Action)
    requires OneEach(xs) && a in xs && b in xs && a != b && Emitted(a) && Emitted(b)
    ensures a.sp != b.sp
  {
    var i :| 0 <= i < |xs| && xs[i] == a;
    var j :| 0 <= j < |xs| && xs[j] == b;
    if i < j { assert xs[i].sp != xs[j].sp; } else { assert xs[j].sp != xs[i].sp; }
  }

  lemma {:induction false} EmittedOnce(xs: seq<Action>, a: Action)
    requires OneEach(xs) && Emitted(a)
    ensures multiset(xs)[a] <= 1
    decreases |xs|
  {
    if xs != [] {
      var n := |xs| - 1;
      EmittedOnce(xs[..n], a);
      assert xs == xs[..n] + [xs[n]];
      if a == xs[n] { assert a !in xs[..n]; }
    }
  }

  lemma CompressedJustified(g: Grammar, m: Automaton, q: nat, fws: Config -> set<nat>, acts: seq<Action>, r: nat,
                            a: Action)
    requires q < |m.configs| && |m.goto| == |m.configs| && Settled(g, m, q, fws, acts)
    requires (forall b :: b in acts ==> b.sp < g.nsym) && a in Defaulted(acts, r, g.nsym, false) && Emitted(a)
    ensures if a.sp != g.nsym then ActionOk(g, m, q, fws, a)
            else a.kind == REDUCE && a.arg < |g.rules| && Config(a.arg, |g.rules[a.arg].rhs|) in m.configs[q]
  {
    hide OneEach, Defaulted;
    EachFrom(acts, r, g.nsym, a);
    if a !in acts {
      var b :| b in acts && IsReduce(b, r) && a == b.(sp := g.nsym);
      ReduceOk(g, m, q, fws, b);
    }
  }

  lemma CompressedPackable(g: Grammar, m: Automaton, q: nat, fws: Config -> set<nat>, acts: seq<Action>,
                           isStart: nat -> bool, nbest: nat, rbest: nat)
    requires q < |m.configs| && |m.goto| == |m.configs| && Settled(g, m, q, fws, acts) && |acts| < Pow2(LISTSIZE)
    requires MostFrequent(acts, isStart, nbest, rbest) && g.nterm <= g.start < g.nsym
    requires forall a :: a in acts ==> a.sp < g.nsym
    ensures Packable(g, m, q, fws, Compressed(acts, nbest, rbest, g.nsym))
  {
    hide OneEach, ActionOk, Defaulted, SortActions, Sorted, Grouped, MostFrequent;
    if nbest > 0 {
      var ds := Defaulted(acts, rbest, g.nsym, false);
      DefaultedOneEach(acts, rbest, g.nsym);
      SortActionsOk(ds);
      PermutedOneEach(ds, SortActions(ds));
      forall a | a in ds && Emitted(a)
        ensures if a.sp != g.nsym then ActionOk(g, m, q, fws, a)
                else a.kind == REDUCE && a.arg < |g.rules| && Config(a.arg, |g.rules[a.arg].rhs|) in m.configs[q]
      {
        CompressedJustified(g, m, q, fws, acts, rbest, a);
      }
      CompressedKeeps(g, m, q, fws, acts, rbest, SortActions(ds));
    }
  }

  lemma CompressedKeeps(g: Grammar, m: Automaton, q: nat, fws: Config -> set<nat>, acts: seq<Action>, r: nat,
                        cs: seq<Action>)
    requires q < |m.configs| && |m.goto| == |m.configs| && Settled(g, m, q, fws, acts)
    requires forall a :: a in cs <==> a in Defaulted(acts, r, g.nsym, false)
    ensures forall n :: n >= g.nterm && One(n) in m.goto[q] ==> Has(cs, n, SHIFT, m.goto[q][One(n)])
    ensures q == 0 ==> HasKind(cs, g.start, ACCEPT)
  {
    hide OneEach, ActionOk, Defaulted;
    forall a | a in acts && !IsReduce(a, r) ensures a in cs { KeptIn(acts, r, g.nsym, a); }
  }

  lemma ReduceOk(g: Grammar, m: Automaton, q: nat, fws: Config -> set<nat>, a: Action)
    requires q < |m.configs| && |m.goto| == |m.configs| && ActionOk(g, m, q, fws, a) && a.kind == REDUCE
    ensures a.arg < |g.rules| && Config(a.arg, |g.rules[a.arg].rhs|) in m.configs[q]
  {}

  ghost predicate DefaultFrom(acts: seq<Action>, r: nat, nsym: nat, a: Action) {
    a in acts || (a.sp == nsym && exists b :: b in acts && IsReduce(b, r) && a == b.(sp := nsym))
  }

  lemma EachFrom(acts: seq<Action>, r: nat, nsym: nat, a: Action)
    requires a in Defaulted(acts, r, nsym, false) && Emitted(a)
    ensures DefaultFrom(acts, r, nsym, a)
  {
    var ds := Defaulted(acts, r, nsym, false);
    var k :| 0 <= k < |ds| && ds[k] == a;
    DefaultedAt(acts, r, nsym, false, k);
    assert acts[k] in acts;
  }

  lemma KeptIn(acts: seq<Action>, r: nat, nsym: nat, a: Action)
    requires a in acts && !IsReduce(a, r)
    ensures a in Defaulted(acts, r, nsym, false)
  {
    var k :| 0 <= k < |acts| && acts[k] == a;
    DefaultedAt(acts, r, nsym, false, k);
    assert Defaulted(acts, r, nsym, false)[k] == a;
  }
}
