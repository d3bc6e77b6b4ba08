/**
 Construction of the LR(0) states: `getstate` and `buildshifts` call each other until no new basis
 turns up. Every state is the exact closure of its basis, and no two states have the same basis.
 */
module Lr0 {
  import opened Grammars
  import opened LrDriver
  import opened MergeSort

  function Elems<T(==)>(xs: seq<T>): set<T> { set i | 0 <= i < |xs| :: xs[i] }

  ghost predicate NoDup<T>(xs: seq<T>) { forall i, j :: 0 <= i < j < |xs| ==> xs[i] != xs[j] }

  lemma Appended<T>(xs: seq<T>, x: T)
    ensures Elems(xs + [x]) == Elems(xs) + {x}
  {
    var ys := xs + [x];
    forall y | y in Elems(xs) + {x} ensures y in Elems(ys) {
      if y in Elems(xs) {
        var i :| 0 <= i < |xs| && xs[i] == y;
        assert ys[i] == y;
      } else {
        assert ys[|xs|] == y;
      }
    }
  }

  /** All configurations of the grammar. */
  function AllConfigs(g: Grammar): set<Config> {
    set r, d | 0 <= r < |g.rules| && 0 <= d <= |g.rules[r].rhs| :: Config(r, d)
  }

  // ----- closure -----

  /** With a configuration waiting for a nonterminal come the starts of all its rules. */
  ghost predicate Closed(g: Grammar, cs: set<Config>) {
    forall c, r :: c in cs && 0 <= r < |g.rules| && Before(g, c, One(g.rules[r].lhs)) ==> Config(r, 0) in cs
  }

  /** `cs` is the least closed set that holds the basis. */
  ghost predicate IsClosure(g: Grammar, basis: set<Config>, cs: set<Config>) {
    basis <= cs && Closed(g, cs) && forall ds: set<Config> :: basis <= ds && Closed(g, ds) ==> cs <= ds
  }

  ghost predicate AllOk(g: Grammar, cs: seq<Config>) { forall i :: 0 <= i < |cs| ==> ConfigOk(g, cs[i]) }

  /** A configuration list that grew from `basis` so far, and is still inside every closed set. */
  ghost predicate Growing(g: Grammar, basis: seq<Config>, cs: seq<Config>) {
    AllOk(g, cs) && NoDup(cs) && Elems(basis) <= Elems(cs) &&
    forall ds: set<Config> :: Elems(basis) <= ds && Closed(g, ds) ==> Elems(cs) <= ds
  }

  /** The starts of the rules below `n` that configuration `c` brings with it are in `cs`. */
  ghost predicate Served(g: Grammar, cs: seq<Config>, c: Config, n: nat) {
    forall r :: 0 <= r < n <= |g.rules| && Before(g, c, One(g.rules[r].lhs)) ==> Config(r, 0) in cs
  }

  lemma ListBound(g: Grammar, cs: seq<Config>)
    requires AllOk(g, cs) && NoDup(cs)
    ensures |cs| <= |AllConfigs(g)|
  {
    Cardinal(cs);
    assert Elems(cs) <= AllConfigs(g);
    Subset(Elems(cs), AllConfigs(g));
  }

  lemma {:induction false} Cardinal<T>(xs: seq<T>)
    requires NoDup(xs)
    ensures |Elems(xs)| == |xs|
  {
    if xs != [] {
      var n := |xs| - 1;
      Cardinal(xs[..n]);
      assert Elems(xs) == Elems(xs[..n]) + {xs[n]};
    }
  }

  lemma {:induction false} Subset<T>(a: set<T>, b: set<T>)
    requires a <= b
    ensures |a| <= |b|
    decreases a
  {
    if x :| x in a { Subset(a - {x}, b - {x}); }
  }

  /** `Configlist_add`: a configuration already on the list is not added again. */
  method Add(ghost g: Grammar, ghost basis: seq<Config>, cs: seq<Config>, c: Config) returns (ds: seq<Config>)
    requires Growing(g, basis, cs) && ConfigOk(g, c)
    requires forall xs: set<Config> :: Elems(basis) <= xs && Closed(g, xs) ==> c in xs
    ensures Growing(g, basis, ds) && cs <= ds && c in ds
  {
    if c in cs {
      ds := cs;
    } else {
      ds := cs + [c];
      Appended(cs, c);
    }
  }

  /** `Configlist_closure`: the list is walked while it grows. */
  method Close(g: Grammar, basis: seq<Config>) returns (cs: seq<Config>)
    requires g.Valid() && AllOk(g, basis) && NoDup(basis)
    ensures AllOk(g, cs) && NoDup(cs) && IsClosure(g, Elems(basis), Elems(cs))
  {
    cs := basis;
    var i := 0;
    while i < |cs|
      invariant i <= |cs| && Growing(g, basis, cs)
      invariant forall k :: 0 <= k < i ==> Served(g, cs, cs[k], |g.rules|)
      decreases |AllConfigs(g)| - i
    {
      ListBound(g, cs);
      var c := cs[i];
      if c.dot < |g.rules[c.rule].rhs| {
        var x := g.rules[c.rule].rhs[c.dot];
        ghost var before := cs;
        for r := 0 to |g.rules|
          invariant Growing(g, basis, cs) && before <= cs && i < |cs| && cs[i] == c
          invariant Served(g, cs, c, r)
        {
          if x == One(g.rules[r].lhs) {
            Brings(g, basis, cs, i, r);
            cs := Add(g, basis, cs, Config(r, 0));
          }
        }
      }
      i := i + 1;
    }
    ClosedList(g, cs);
  }

  lemma Brings(g: Grammar, basis: seq<Config>, cs: seq<Config>, i: nat, r: nat)
    requires Growing(g, basis, cs) && i < |cs| && r < |g.rules| && Before(g, cs[i], One(g.rules[r].lhs))
    ensures forall xs: set<Config> :: Elems(basis) <= xs && Closed(g, xs) ==> Config(r, 0) in xs
  {
    forall xs: set<Config> | Elems(basis) <= xs && Closed(g, xs) ensures Config(r, 0) in xs {
      assert cs[i] in Elems(cs);
    }
  }

  lemma ClosedList(g: Grammar, cs: seq<Config>)
    requires forall k :: 0 <= k < |cs| ==> Served(g, cs, cs[k], |g.rules|)
    ensures Closed(g, Elems(cs))
  {
    forall c, r | c in Elems(cs) && 0 <= r < |g.rules| && Before(g, c, One(g.rules[r].lhs))
      ensures Config(r, 0) in Elems(cs)
    {
      var k :| 0 <= k < |cs| && cs[k] == c;
      assert Served(g, cs, cs[k], |g.rules|);
      var j :| 0 <= j < |cs| && cs[j] == Config(r, 0);
    }
  }

  /** In a closure every configuration outside the basis is at its start, and some configuration waits for it. */
  lemma ClosureIsJustified(g: Grammar, basis: set<Config>, cs: set<Config>, c: Config)
    requires IsClosure(g, basis, cs) && c in cs && c !in basis
    ensures c.dot == 0 && c.rule < |g.rules| && Waited(g, cs, c.rule)
  {
    var ds := set d | d in cs && (d in basis || (d.dot == 0 && d.rule < |g.rules| && Waited(g, cs, d.rule)));
    forall d, r | d in ds && 0 <= r < |g.rules| && Before(g, d, One(g.rules[r].lhs)) ensures Config(r, 0) in ds {
      assert d in cs;
    }
    assert Closed(g, ds);
  }

  // ----- states -----

  datatype Shift = Shift(item: Item, target: nat)

  datatype State = State(basis: seq<Config>, configs: seq<Config>, shifts: seq<Shift>)

  /** The configurations with the dot moved over `x`. */
  ghost function Moved(g: Grammar, cs: set<Config>, x: Item): set<Config> {
    set c | c in cs && Before(g, c, x) :: Config(c.rule, c.dot + 1)
  }

  /** The order of configurations: by rule, then by dot. */
  predicate Below(a: Config, b: Config) { a.rule < b.rule || (a.rule == b.rule && a.dot < b.dot) }

  predicate Ascending(cs: seq<Config>) { forall i, j :: 0 <= i < j < |cs| ==> Below(cs[i], cs[j]) }

  /** `statecmp` finds two sorted bases equal exactly when they hold the same configurations. */
  lemma {:induction false} SortedEqual(a: seq<Config>, b: seq<Config>)
    requires Ascending(a) && Ascending(b)
    ensures a == b <==> Elems(a) == Elems(b)
    decreases |a|
  {
    if Elems(a) == Elems(b) {
      if a == [] {
        NoElems(b);
      } else {
        assert a[0] in Elems(a);
        var j :| 0 <= j < |b| && b[j] == a[0];
        assert b[0] in Elems(b);
        var i :| 0 <= i < |a| && a[i] == b[0];
        assert a[0] == b[0];
        TailElems(a);
        TailElems(b);
        SortedEqual(a[1..], b[1..]);
        assert a == [a[0]] + a[1..] && b == [b[0]] + b[1..];
      }
    }
  }

  lemma NoElems<T>(xs: seq<T>)
    ensures Elems(xs) == {} ==> xs == []
  {
    if xs != [] { assert xs[0] in Elems(xs); }
  }

  lemma TailElems(a: seq<Config>)
    requires Ascending(a) && a != []
    ensures Elems(a[1..]) == Elems(a) - {a[0]} && Ascending(a[1..])
  {
    forall c | c in Elems(a) - {a[0]} ensures c in Elems(a[1..]) {
      var i :| 0 <= i < |a| && a[i] == c;
      assert a[1..][i - 1] == c;
    }
  }

  /** `Configcmp`. */
  function ConfigCmp(a: Config, b: Config): int { if a.rule != b.rule then a.rule - b.rule else a.dot - b.dot }

  lemma InMultiset<T>(xs: seq<T>, x: T)
    ensures x in multiset(xs) <==> x in Elems(xs)
  {
    if x in multiset(xs) { assert x in xs; }
  }

  lemma SameElements(xs: seq<Config>, ys: seq<Config>)
    requires multiset(xs) == multiset(ys) && NoDup(xs) && Sorted(ConfigCmp, ys)
    ensures Ascending(ys) && Elems(ys) == Elems(xs)
  {
    forall x ensures x in Elems(ys) <==> x in Elems(xs) {
      InMultiset(xs, x);
      InMultiset(ys, x);
    }
    forall i, j | 0 <= i < j < |ys| ensures Below(ys[i], ys[j]) {
      if ys[i] == ys[j] { Twice(xs, ys, i, j); }
    }
  }

  lemma {:induction false} Once<T>(xs: seq<T>, x: T)
    requires NoDup(xs)
    ensures multiset(xs)[x] <= 1
    decreases |xs|
  {
    if xs != [] {
      var n := |xs| - 1;
      Once(xs[..n], x);
      assert xs == xs[..n] + [xs[n]];
      if x == xs[n] { assert x !in xs[..n]; }
    }
  }

  lemma Twice(xs: seq<Config>, ys: seq<Config>, i: nat, j: nat)
    requires multiset(xs) == multiset(ys) && NoDup(xs) && i < j < |ys|
    ensures ys[i] != ys[j]
  {
    Once(xs, ys[j]);
    assert ys == ys[..j] + [ys[j]] + ys[j + 1..];
    assert ys[i] in ys[..j];
  }

  /** The list in ascending order; lists of configurations are far shorter than the sort's limit. */
  method Sort(g: Grammar, cs: seq<Config>) returns (ds: seq<Config>)
    requires AllOk(g, cs) && NoDup(cs) && |AllConfigs(g)| < Pow2(LISTSIZE)
    ensures Ascending(ds) && Elems(ds) == Elems(cs) && AllOk(g, ds)
  {
    ListBound(g, cs);
    SortsBelowLimit(ConfigCmp, cs);
    ds := MSort(ConfigCmp, cs);
    SameElements(cs, ds);
    forall i | 0 <= i < |ds| ensures ConfigOk(g, ds[i]) { assert ds[i] in Elems(cs); }
  }

  // ----- what the state table holds -----

  /** The configurations of the list with `x` after the dot, the dot moved over it. */
  function MovedList(g: Grammar, cs: seq<Config>, x: Item): seq<Config>
    requires AllOk(g, cs)
    decreases |cs|
  {
    if cs == [] then []
    else
      var c := cs[|cs| - 1];
      var ds := MovedList(g, cs[..|cs| - 1], x);
      if c.dot < |g.rules[c.rule].rhs| && g.rules[c.rule].rhs[c.dot] == x then ds + [Config(c.rule, c.dot + 1)] else ds
  }

  lemma {:induction false} MovedElems(g: Grammar, cs: seq<Config>, x: Item)
    requires AllOk(g, cs)
    ensures Elems(MovedList(g, cs, x)) == Moved(g, Elems(cs), x)
    decreases |cs|
  {
    if cs == [] {
      assert Moved(g, Elems(cs), x) == {};
    } else {
      var n := |cs| - 1;
      MovedElems(g, cs[..n], x);
      Appended(cs[..n], cs[n]);
      assert cs == cs[..n] + [cs[n]];
      var c' := Config(cs[n].rule, cs[n].dot + 1);
      Appended(MovedList(g, cs[..n], x), c');
      MovedOne(g, Elems(cs[..n]), cs[n], x);
    }
  }

  lemma MovedOne(g: Grammar, cs: set<Config>, c: Config, x: Item)
    ensures Moved(g, cs + {c}, x) == Moved(g, cs, x) + if Before(g, c, x) then {Config(c.rule, c.dot + 1)} else {}
  {
    if Before(g, c, x) { assert c in cs + {c}; }
  }

  lemma {:induction false} MovedListIs(g: Grammar, cs: seq<Config>, x: Item)
    requires AllOk(g, cs) && NoDup(cs)
    ensures var ds := MovedList(g, cs, x);
      AllOk(g, ds) && NoDup(ds) && Elems(ds) == Moved(g, Elems(cs), x) && forall i :: 0 <= i < |ds| ==> ds[i].dot > 0
    decreases |cs|
  {
    hide Moved;
    MovedElems(g, cs, x);
    if cs != [] {
      var n := |cs| - 1;
      var ds := MovedList(g, cs[..n], x);
      MovedListIs(g, cs[..n], x);
      forall i | 0 <= i < |ds| ensures ds[i] != Config(cs[n].rule, cs[n].dot + 1) {
        assert ds[i] in Elems(ds);
        MovedFrom(g, cs[..n], x, ds[i]);
      }
    }
  }

  lemma MovedFrom(g: Grammar, cs: seq<Config>, x: Item, d: Config)
    requires d in Moved(g, Elems(cs), x)
    ensures d.dot > 0 && exists j :: 0 <= j < |cs| && cs[j] == Config(d.rule, d.dot - 1)
  {
    var c :| c in Elems(cs) && Before(g, c, x) && Config(c.rule, c.dot + 1) == d;
    var j :| 0 <= j < |cs| && cs[j] == c;
  }

  ghost predicate ShiftOk(g: Grammar, states: seq<State>, i: nat, k: nat)
    requires i < |states| && k < |states[i].shifts|
  {
    var s := states[i].shifts[k];
    s.target < |states| && Elems(states[s.target].basis) == Moved(g, Elems(states[i].configs), s.item) &&
    exists c :: c in states[i].configs && Before(g, c, s.item)
  }

  ghost predicate Shape(g: Grammar, states: seq<State>, i: nat)
    requires i < |states|
  {
    var s := states[i];
    Ascending(s.basis) && AllOk(g, s.basis) && AllOk(g, s.configs) && NoDup(s.configs) &&
    IsClosure(g, Elems(s.basis), Elems(s.configs)) &&
    (i > 0 ==> forall c :: c in s.basis ==> c.dot > 0) &&
    (forall k :: 0 <= k < |s.shifts| ==> ShiftOk(g, states, i, k)) &&
    (forall k, l :: 0 <= k < l < |s.shifts| ==> s.shifts[k].item != s.shifts[l].item)
  }

  /** What holds all through the construction. */
  ghost predicate Sane(g: Grammar, states: seq<State>) {
    (forall i :: 0 <= i < |states| ==> Shape(g, states, i)) &&
    (forall i, j :: 0 <= i < j < |states| ==> Elems(states[i].basis) != Elems(states[j].basis))
  }

  ghost predicate Shifts(s: State, x: Item) { exists k :: 0 <= k < |s.shifts| && s.shifts[k].item == x }

  /** Every element that stands after a dot has been shifted. */
  ghost predicate Complete(g: Grammar, s: State) {
    forall c, x :: c in s.configs && Before(g, c, x) ==> Shifts(s, x)
  }

  // ----- termination -----

  ghost function Subsets(g: Grammar): set<set<Config>> { set b | b <= AllConfigs(g) }

  ghost function Bases(states: seq<State>): set<set<Config>> { set i | 0 <= i < |states| :: Elems(states[i].basis) }

  /** How many bases are not in the state table yet. */
  ghost function Left(g: Grammar, states: seq<State>): int { |Subsets(g)| - |Bases(states)| }

  lemma BasesFit(g: Grammar, states: seq<State>)
    requires Sane(g, states)
    ensures Bases(states) <= Subsets(g) && Left(g, states) >= 0
  {
    forall i | 0 <= i < |states| ensures Elems(states[i].basis) <= AllConfigs(g) {
      assert Shape(g, states, i);
    }
    Subset(Bases(states), Subsets(g));
  }

  /** A state with a new basis, without its shifts. */
  lemma Added(g: Grammar, states: seq<State>, s: State)
    requires Sane(g, states) && s.shifts == [] && Ascending(s.basis) && AllOk(g, s.basis) && AllOk(g, s.configs)
    requires NoDup(s.configs) && IsClosure(g, Elems(s.basis), Elems(s.configs))
    requires states != [] ==> forall c :: c in s.basis ==> c.dot > 0
    requires forall i :: 0 <= i < |states| ==> Elems(states[i].basis) != Elems(s.basis)
    ensures Sane(g, states + [s]) && Left(g, states + [s]) < Left(g, states)
  {
    var states' := states + [s];
    forall i | 0 <= i < |states'| ensures Shape(g, states', i) {
      if i < |states| {
        assert Shape(g, states, i);
        forall k | 0 <= k < |states[i].shifts| ensures ShiftOk(g, states', i, k) { assert ShiftOk(g, states, i, k); }
      }
    }
    BasesAppended(states, s);
    assert Elems(s.basis) !in Bases(states);
    BasesFit(g, states);
    BasesFit(g, states');
  }

  lemma BasesAppended(states: seq<State>, s: State)
    ensures Bases(states + [s]) == Bases(states) + {Elems(s.basis)}
  {
    var states' := states + [s];
    forall b | b in Bases(states) + {Elems(s.basis)} ensures b in Bases(states') {
      if b in Bases(states) {
        var i :| 0 <= i < |states| && Elems(states[i].basis) == b;
        assert states'[i] == states[i];
      } else {
        assert states'[|states|] == s;
      }
    }
  }

  /** A shift to a state with the right basis. */
  lemma Shifted(g: Grammar, states: seq<State>, k: nat, x: Item, t: nat)
    requires Sane(g, states) && k < |states| && t < |states| && !Shifts(states[k], x)
    requires Elems(states[t].basis) == Moved(g, Elems(states[k].configs), x)
    requires exists c :: c in states[k].configs && Before(g, c, x)
    ensures var s' := states[k].(shifts := states[k].shifts + [Shift(x, t)]);
      Sane(g, states[k := s']) && Left(g, states[k := s']) == Left(g, states)
  {
    var s' := states[k].(shifts := states[k].shifts + [Shift(x, t)]);
    var states' := states[k := s'];
    forall i | 0 <= i < |states'| ensures Shape(g, states', i) {
      assert Shape(g, states, i);
      forall l | 0 <= l < |states'[i].shifts| ensures ShiftOk(g, states', i, l) {
        if l < |states[i].shifts| { assert ShiftOk(g, states, i, l); }
      }
    }
    assert forall i :: 0 <= i < |states| ==> states'[i].basis == states[i].basis;
    assert Bases(states') == Bases(states);
  }

  // ----- the builder -----

  class Builder {
    const g: Grammar
    var states: seq<State>

    constructor (g: Grammar)
      ensures states == [] && this.g == g
    {
      this.g := g;
      states := [];
    }

    /** `State_find`. */
    method Find(basis: seq<Config>) returns (k: Option)
      requires Sane(g, states) && Ascending(basis)
      ensures match k
        case Found(i) => i < |states| && Elems(states[i].basis) == Elems(basis)
        case Missing => forall i :: 0 <= i < |states| ==> Elems(states[i].basis) != Elems(basis)
    {
      for i := 0 to |states|
        invariant forall j :: 0 <= j < i ==> Elems(states[j].basis) != Elems(basis)
      {
        assert Shape(g, states, i);
        SortedEqual(states[i].basis, basis);
        if states[i].basis == basis { return Found(i); }
      }
      k := Missing;
    }

    /** `getstate`. */
    method GetState(current: seq<Config>) returns (k: nat)
      requires g.Valid() && |AllConfigs(g)| < Pow2(LISTSIZE) && Sane(g, states) && AllOk(g, current) && NoDup(current)
      requires states != [] ==> forall c :: c in current ==> c.dot > 0
      modifies this
      ensures Sane(g, states) && old(states) <= states && Left(g, states) <= old(Left(g, states))
      ensures k < |states| && Elems(states[k].basis) == Elems(current) && (old(states) == [] ==> k == 0)
      ensures forall i :: |old(states)| <= i < |states| ==> Complete(g, states[i])
      decreases Left(g, states), 0
    {
      hide Sane, Left, Elems, Complete;
      BasesFit(g, states);
      var basis := Sort(g, current);
      var found := Find(basis);
      match found
      case Found(i) => k := i;
      case Missing =>
        var closure := Close(g, current);
        var configs := Sort(g, closure);
        var s := State(basis, configs, []);
        AscendingNoDup(configs);
        BasisDots(basis, current);
        Added(g, states, s);
        k := |states|;
        states := states + [s];
        BuildShifts(k);
    }

    /** `buildshifts`. */
    method BuildShifts(k: nat)
      requires g.Valid() && |AllConfigs(g)| < Pow2(LISTSIZE) && Sane(g, states)
      requires k < |states| && states[k].shifts == []
      modifies this
      ensures Sane(g, states) && |old(states)| <= |states| && Left(g, states) <= old(Left(g, states))
      ensures forall i :: 0 <= i < |old(states)| && i != k ==> states[i] == old(states)[i]
      ensures states[k] == old(states)[k].(shifts := states[k].shifts) && Complete(g, states[k])
      ensures forall i :: |old(states)| <= i < |states| ==> Complete(g, states[i])
      decreases Left(g, states), 1
    {
      hide Sane, Left, Elems, Moved, Complete, Before, Shifts, InStep, AllOk, NoDup, AllConfigs, Grammar.Valid,
           MovedList;
      var cs := states[k].configs;
      assert AllOk(g, cs) && NoDup(cs) by { ShapeOf(g, states, k); }
      var status := seq(|cs|, _ => false);
      NoneTaken(g, states[k], status);
      for i := 0 to |cs|
        invariant Sane(g, states) && |old(states)| <= |states| && Left(g, states) <= old(Left(g, states))
        invariant forall j :: 0 <= j < |old(states)| && j != k ==> states[j] == old(states)[j]
        invariant states[k] == old(states)[k].(shifts := states[k].shifts) && |status| == |cs|
        invariant InStep(g, states[k], status) && PassedOver(g, cs, status, i)
        invariant forall j :: |old(states)| <= j < |states| ==> Complete(g, states[j])
      {
        AllOkAt(g, cs, i);
        AfterDot(g, cs[i]);
        if !status[i] && cs[i].dot < |g.rules[cs[i].rule].rhs| {
          var x := g.rules[cs[i].rule].rhs[cs[i].dot];
          NotTaken(g, states[k], status, i, x);
          BasesFit(g, states);
          ghost var before := states[k];
          var current, marked := Gather(cs, status, i, x);
          MovedListIs(g, cs, x);
          var t := GetState(current);
          Shifted(g, states, k, x, t);
          var s := states[k].(shifts := states[k].shifts + [Shift(x, t)]);
          OneMoreTaken(g, before, status, marked, x, t);
          status := marked;
          states := states[k := s];
        }
      }
      AllTaken(g, states[k], status);
    }

    /** The inner loop of `buildshifts`: every configuration with `x` after its dot is taken and marked. */
    method Gather(cs: seq<Config>, status: seq<bool>, i: nat, x: Item) returns (current: seq<Config>, marked: seq<bool>)
      requires AllOk(g, cs) && |status| == |cs| && i < |cs|
      requires forall j :: 0 <= j < i ==> !Before(g, cs[j], x)
      requires forall j :: 0 <= j < |cs| && Before(g, cs[j], x) ==> !status[j]
      ensures current == MovedList(g, cs, x) && |marked| == |cs|
      ensures forall j :: 0 <= j < |cs| ==> marked[j] == (status[j] || Before(g, cs[j], x))
    {
      current, marked := [], status;
      NothingMoved(g, cs[..i], x);
      for j := i to |cs|
        invariant |marked| == |cs| && current == MovedList(g, cs[..j], x)
        invariant forall l :: 0 <= l < j ==> marked[l] == (status[l] || Before(g, cs[l], x))
        invariant forall l :: j <= l < |cs| ==> marked[l] == status[l]
      {
        var c := cs[j];
        assert cs[..j + 1][..j] == cs[..j];
        if !marked[j] && c.dot < |g.rules[c.rule].rhs| && g.rules[c.rule].rhs[c.dot] == x {
          marked := marked[j := true];
          current := current + [Config(c.rule, c.dot + 1)];
        }
      }
      assert cs[..|cs|] == cs;
    }

    /** `FindStates`: everything is built from the state of the start symbol's rules. */
    method Build()
      requires g.Valid() && |AllConfigs(g)| < Pow2(LISTSIZE) && states == []
      modifies this
      ensures Built(g, states)
    {
      hide Complete, Left, Elems, AllConfigs, Shape, AllOk, NoDup, StartsBelow;
      NoStarts(g);
      var current := [];
      for r := 0 to |g.rules|
        invariant AllOk(g, current) && NoDup(current) && Elems(current) == StartsBelow(g, r)
        invariant states == []
      {
        NextStart(g, current, r);
        if g.rules[r].lhs == g.start { current := current + [Config(r, 0)]; }
      }
      var k := GetState(current);
    }
  }

  datatype Option = Found(index: nat) | Missing

  ghost function StartsBelow(g: Grammar, n: nat): set<Config>
    requires n <= |g.rules|
  {
    set r | 0 <= r < n && g.rules[r].lhs == g.start :: Config(r, 0)
  }

  ghost function Starts(g: Grammar): set<Config> { StartsBelow(g, |g.rules|) }

  lemma NoStarts(g: Grammar)
    ensures AllOk(g, []) && NoDup<Config>([]) && Elems([]) == StartsBelow(g, 0) && Sane(g, [])
  {}

  lemma NextStart(g: Grammar, cs: seq<Config>, r: nat)
    requires g.Valid() && r < |g.rules| && AllOk(g, cs) && NoDup(cs) && Elems(cs) == StartsBelow(g, r)
    ensures var cs' := if g.rules[r].lhs == g.start then cs + [Config(r, 0)] else cs;
      AllOk(g, cs') && NoDup(cs') && Elems(cs') == StartsBelow(g, r + 1)
  {
    if g.rules[r].lhs == g.start { Appended(cs, Config(r, 0)); }
    forall c | c in cs ensures c in Elems(cs) && c.rule < r {}
  }

  lemma AscendingNoDup(cs: seq<Config>)
    requires Ascending(cs)
    ensures NoDup(cs)
  {}

  lemma BasisDots(basis: seq<Config>, current: seq<Config>)
    requires Elems(basis) == Elems(current)
    ensures (forall c :: c in current ==> c.dot > 0) ==> forall c :: c in basis ==> c.dot > 0
  {
    forall c | c in basis ensures c in current { assert c in Elems(basis); }
  }

  lemma ShapeOf(g: Grammar, states: seq<State>, i: nat)
    requires Sane(g, states) && i < |states|
    ensures AllOk(g, states[i].configs) && NoDup(states[i].configs)
  {
    assert Shape(g, states, i);
  }

  lemma {:induction false} NothingMoved(g: Grammar, cs: seq<Config>, x: Item)
    requires AllOk(g, cs) && forall j :: 0 <= j < |cs| ==> !Before(g, cs[j], x)
    ensures MovedList(g, cs, x) == []
    decreases |cs|
  {
    if cs != [] {
      assert !Before(g, cs[|cs| - 1], x);
      NothingMoved(g, cs[..|cs| - 1], x);
    }
  }

  lemma AllOkAt(g: Grammar, cs: seq<Config>, i: nat)
    requires AllOk(g, cs) && i < |cs|
    ensures ConfigOk(g, cs[i])
  {}

  lemma AfterDot(g: Grammar, c: Config)
    requires ConfigOk(g, c)
    ensures forall x :: Before(g, c, x) <==> c.dot < |g.rules[c.rule].rhs| && g.rules[c.rule].rhs[c.dot] == x
  {}

  /** A configuration is marked when the element after its dot has been shifted. */
  ghost predicate InStep(g: Grammar, s: State, status: seq<bool>) {
    |status| == |s.configs| &&
    forall j, x :: 0 <= j < |status| && Before(g, s.configs[j], x) ==> (status[j] <==> Shifts(s, x))
  }

  ghost predicate PassedOver(g: Grammar, cs: seq<Config>, status: seq<bool>, n: nat) {
    |status| == |cs| && forall j, x :: 0 <= j < n && j < |cs| && Before(g, cs[j], x) ==> status[j]
  }

  lemma NoneTaken(g: Grammar, s: State, status: seq<bool>)
    requires s.shifts == [] && |status| == |s.configs| && forall j :: 0 <= j < |status| ==> !status[j]
    ensures InStep(g, s, status)
  {}

  lemma NotTaken(g: Grammar, s: State, status: seq<bool>, i: nat, x: Item)
    requires InStep(g, s, status) && i < |status| && !status[i] && Before(g, s.configs[i], x)
    ensures !Shifts(s, x) && forall j :: 0 <= j < |status| && Before(g, s.configs[j], x) ==> !status[j]
  {
    hide Before;
  }

  lemma OneMoreTaken(g: Grammar, s: State, status: seq<bool>, marked: seq<bool>, x: Item, t: nat)
    requires InStep(g, s, status) && |marked| == |status|
    requires forall j :: 0 <= j < |status| ==> marked[j] == (status[j] || Before(g, s.configs[j], x))
    ensures InStep(g, s.(shifts := s.shifts + [Shift(x, t)]), marked)
  {
    hide Shifts;
    OneMoreShift(s, x, t);
  }

  lemma AllTaken(g: Grammar, s: State, status: seq<bool>)
    requires InStep(g, s, status) && PassedOver(g, s.configs, status, |status|)
    ensures Complete(g, s)
  {
    hide Before, Shifts;
  }

  lemma OneMoreShift(s: State, x: Item, t: nat)
    ensures var s' := s.(shifts := s.shifts + [Shift(x, t)]); forall y :: Shifts(s', y) <==> y == x || Shifts(s, y)
  {
    var s' := s.(shifts := s.shifts + [Shift(x, t)]);
    assert s'.shifts[|s.shifts|].item == x;
    forall y | Shifts(s, y) ensures Shifts(s', y) {
      var k :| 0 <= k < |s.shifts| && s.shifts[k].item == y;
      assert s'.shifts[k].item == y;
    }
  }

  // ----- the automaton -----

  function GotoOf(shifts: seq<Shift>): map<Item, nat>
    decreases |shifts|
  {
    if shifts == [] then map[]
    else GotoOf(shifts[..|shifts| - 1])[shifts[|shifts| - 1].item := shifts[|shifts| - 1].target]
  }

  lemma {:induction false} GotoIs(shifts: seq<Shift>)
    requires forall k, l :: 0 <= k < l < |shifts| ==> shifts[k].item != shifts[l].item
    ensures forall k :: 0 <= k < |shifts| ==>
      shifts[k].item in GotoOf(shifts) && GotoOf(shifts)[shifts[k].item] == shifts[k].target
    ensures forall x :: x in GotoOf(shifts) ==> exists k :: 0 <= k < |shifts| && shifts[k].item == x
    decreases |shifts|
  {
    if shifts != [] {
      var n := |shifts| - 1;
      GotoIs(shifts[..n]);
      forall k | 0 <= k < |shifts|
        ensures shifts[k].item in GotoOf(shifts) && GotoOf(shifts)[shifts[k].item] == shifts[k].target
      {
        if k < n { assert shifts[..n][k] == shifts[k]; }
      }
      forall x | x in GotoOf(shifts) ensures exists k :: 0 <= k < |shifts| && shifts[k].item == x {
        if x in GotoOf(shifts[..n]) {
          var k :| 0 <= k < n && shifts[..n][k].item == x;
          assert shifts[k].item == x;
        } else {
          assert shifts[n].item == x;
        }
      }
    }
  }

  function AutomatonOf(states: seq<State>): (a: Automaton)
    ensures |a.configs| == |a.goto| == |states|
  {
    Automaton(seq(|states|, i requires 0 <= i < |states| => Elems(states[i].configs)),
              seq(|states|, i requires 0 <= i < |states| => GotoOf(states[i].shifts)))
  }

  /** The table of a finished construction. */
  ghost predicate Built(g: Grammar, states: seq<State>) {
    Sane(g, states) && states != [] && Elems(states[0].basis) == Starts(g) &&
    forall i :: 0 <= i < |states| ==> Complete(g, states[i])
  }

  /** A shift leads to a state other than the first, and undoes as `GotoOk` says. */
  lemma ShiftLeads(g: Grammar, states: seq<State>, i: nat, k: nat)
    requires Built(g, states) && i < |states| && k < |states[i].shifts|
    ensures states[i].shifts[k].item in AutomatonOf(states).goto[i]
    ensures GotoOk(g, AutomatonOf(states), i, states[i].shifts[k].item)
  {
    var s := states[i].shifts[k];
    assert Shape(g, states, i) && ShiftOk(g, states, i, k);
    GotoIs(states[i].shifts);
    var a := AutomatonOf(states);
    var c :| c in states[i].configs && Before(g, c, s.item);
    assert c in a.configs[i];
    var moved := Moved(g, Elems(states[i].configs), s.item);
    assert Config(c.rule, c.dot + 1) in moved;
    assert Config(c.rule, c.dot + 1) !in Starts(g);
    assert Shape(g, states, s.target);
    forall d | d in a.configs[s.target] && d.dot > 0
      ensures Config(d.rule, d.dot - 1) in a.configs[i] && Before(g, Config(d.rule, d.dot - 1), s.item)
    {
      if d !in Elems(states[s.target].basis) {
        ClosureIsJustified(g, Elems(states[s.target].basis), Elems(states[s.target].configs), d);
      }
      var e :| e in Elems(states[i].configs) && Before(g, e, s.item) && Config(e.rule, e.dot + 1) == d;
    }
  }

  lemma BuiltState(g: Grammar, states: seq<State>, q: nat)
    requires Built(g, states) && q < |states|
    ensures StateOk(g, AutomatonOf(states), q)
  {
    hide GotoOk;
    var a, s := AutomatonOf(states), states[q];
    assert Shape(g, states, q) && Complete(g, s);
    GotoIs(s.shifts);
    forall c | c in a.configs[q] ensures ConfigOk(g, c) && (q == 0 ==> c.dot == 0) {
      var j :| 0 <= j < |s.configs| && s.configs[j] == c;
      if q == 0 && c !in Starts(g) { ClosureIsJustified(g, Elems(s.basis), Elems(s.configs), c); }
    }
    forall c | c in a.configs[q] && c.dot == 0
      ensures Waited(g, a.configs[q], c.rule) || (q == 0 && g.rules[c.rule].lhs == g.start)
    {
      if c !in Elems(s.basis) {
        ClosureIsJustified(g, Elems(s.basis), Elems(s.configs), c);
      } else {
        var j :| 0 <= j < |s.basis| && s.basis[j] == c;
        assert c in s.basis;
      }
    }
    forall c, x | c in a.configs[q] && Before(g, c, x) ensures x in a.goto[q] {
      var j :| 0 <= j < |s.configs| && s.configs[j] == c;
      assert Shifts(s, x);
    }
    forall x | x in a.goto[q] ensures GotoOk(g, a, q, x) {
      var k :| 0 <= k < |s.shifts| && s.shifts[k].item == x;
      ShiftLeads(g, states, q, k);
    }
  }

  /** What the construction leaves is an LR(0) automaton. */
  lemma BuiltIsAutomaton(g: Grammar, states: seq<State>)
    requires Built(g, states)
    ensures AutomatonOk(g, AutomatonOf(states))
  {
    hide StateOk, Built;
    forall q | 0 <= q < |states| ensures StateOk(g, AutomatonOf(states), q) { BuiltState(g, states, q); }
    assert states != [] by { NotEmpty(g, states); }
  }

  lemma NotEmpty(g: Grammar, states: seq<State>)
    requires Built(g, states)
    ensures states != []
  {}
}
