/** Nullable nonterminals and first sets: both loops end, with exactly what the grammar derives. */
module FirstSets {
  import opened Grammars

  // ----- what the sets should hold -----

  /** The symbol derives the empty string. */
  ghost predicate Nullable(g: Grammar, s: nat) { exists t :: Derivation(g, t) && Root(g, t) == s && Yield(t) == [] }

  /** The symbol derives a sentential form that begins with terminal `x`. */
  ghost predicate Begins(g: Grammar, s: nat, x: nat) {
    exists t :: Derivation(g, t) && Root(g, t) == s && Yield(t) != [] && Yield(t)[0] == x
  }

  ghost predicate ItemNullable(lambda: set<nat>, x: Item) { x.One? && x.sym in lambda }

  /** Every element before position `i` of the rule is marked. */
  ghost predicate Open(g: Grammar, lambda: set<nat>, r: nat, i: nat)
    requires r < |g.rules| && i <= |g.rules[r].rhs|
  {
    forall j :: 0 <= j < i ==> ItemNullable(lambda, g.rules[r].rhs[j])
  }

  // ----- trees -----

  lemma {:induction false} NothingYielded(ts: seq<Tree>)
    requires forall i :: 0 <= i < |ts| ==> Yield(ts[i]) == []
    ensures Yields(ts) == []
    decreases |ts|
  {
    if ts != [] { NothingYielded(ts[..|ts| - 1]); }
  }

  lemma {:induction false} EachYieldsNothing(ts: seq<Tree>, i: nat)
    requires Yields(ts) == [] && i < |ts|
    ensures Yield(ts[i]) == []
    decreases |ts|
  {
    if i < |ts| - 1 { EachYieldsNothing(ts[..|ts| - 1], i); }
  }

  /** The first symbol comes from the first tree that yields any. */
  lemma {:induction false} FirstYield(ts: seq<Tree>) returns (i: nat)
    requires Yields(ts) != []
    ensures i < |ts| && Yield(ts[i]) != [] && Yield(ts[i])[0] == Yields(ts)[0]
    ensures forall j :: 0 <= j < i ==> Yield(ts[j]) == []
    decreases |ts|
  {
    var n := |ts| - 1;
    if Yields(ts[..n]) != [] {
      i := FirstYield(ts[..n]);
      assert forall j :: 0 <= j <= i ==> ts[..n][j] == ts[j];
    } else {
      i := n;
      forall j | 0 <= j < n ensures Yield(ts[j]) == [] { EachYieldsNothing(ts[..n], j); }
    }
  }

  /** Trees for the elements of a rule from `i` on, one leaf each. */
  ghost function Leaves(items: seq<Item>): (ts: seq<Tree>)
    ensures |ts| == |items|
  {
    seq(|items|, i requires 0 <= i < |items| =>
      match items[i] case One(s) => Leaf(s) case Many(subs) => Leaf(if subs == [] then 0 else subs[0]))
  }

  /** Trees that derive nothing, for nullable elements. */
  lemma {:induction false} NullTrees(g: Grammar, lambda: set<nat>, r: nat, i: nat) returns (ts: seq<Tree>)
    requires r < |g.rules| && i <= |g.rules[r].rhs| && Open(g, lambda, r, i)
    requires forall s :: s in lambda ==> Nullable(g, s)
    ensures |ts| == i && Yields(ts) == []
    ensures forall j :: 0 <= j < i ==> Derivation(g, ts[j]) && Covers(g.rules[r].rhs[j], Root(g, ts[j]))
    decreases i
  {
    ts := [];
    if i > 0 {
      var us := NullTrees(g, lambda, r, i - 1);
      assert ItemNullable(lambda, g.rules[r].rhs[i - 1]);
      var t :| Derivation(g, t) && Root(g, t) == g.rules[r].rhs[i - 1].sym && Yield(t) == [];
      ts := us + [t];
      assert ts[..i - 1] == us;
    }
  }

  /** A rule whose elements are all nullable makes its left side nullable. */
  lemma RuleNullable(g: Grammar, lambda: set<nat>, r: nat)
    requires r < |g.rules| && Open(g, lambda, r, |g.rules[r].rhs|)
    requires forall s :: s in lambda ==> Nullable(g, s)
    ensures Nullable(g, g.rules[r].lhs)
  {
    var ts := NullTrees(g, lambda, r, |g.rules[r].rhs|);
    var t := Branch(r, ts);
    assert Derivation(g, t) && Root(g, t) == g.rules[r].lhs && Yield(t) == [];
  }

  /** A tree of the rule, with given trees up to position `i` and leaves after it. */
  lemma CompleteRule(g: Grammar, r: nat, ts: seq<Tree>, i: nat)
    requires g.Formed() && r < |g.rules| && i < |g.rules[r].rhs| && |ts| == i + 1
    requires forall j :: 0 <= j <= i ==> Derivation(g, ts[j]) && Covers(g.rules[r].rhs[j], Root(g, ts[j]))
    ensures Derivation(g, Branch(r, ts + Leaves(g.rules[r].rhs[i + 1..])))
  {
    var rhs := g.rules[r].rhs;
    var us := Leaves(rhs[i + 1..]);
    var kids := ts + us;
    forall j | 0 <= j < |rhs| ensures Covers(rhs[j], Root(g, kids[j])) && Derivation(g, kids[j]) {
      if j > i { assert kids[j] == us[j - i - 1] && g.ItemOk(rhs[j]); }
    }
  }

  /** A rule with nullable elements before one that can begin with `x` begins with `x`. */
  lemma RuleBegins(g: Grammar, lambda: set<nat>, r: nat, i: nat, s: nat, x: nat)
    requires g.Formed() && r < |g.rules| && i < |g.rules[r].rhs| && Open(g, lambda, r, i)
    requires forall s :: s in lambda ==> Nullable(g, s)
    requires Covers(g.rules[r].rhs[i], s) && Begins(g, s, x)
    ensures Begins(g, g.rules[r].lhs, x)
  {
    hide Leaves, Derivation, Covers;
    var ts := NullTrees(g, lambda, r, i);
    var t :| Derivation(g, t) && Root(g, t) == s && Yield(t) != [] && Yield(t)[0] == x;
    var us := Leaves(g.rules[r].rhs[i + 1..]);
    CompleteRule(g, r, ts + [t], i);
    YieldsJoin(ts + [t], us);
    assert (ts + [t])[..i] == ts;
    var b := Branch(r, ts + [t] + us);
    assert Yield(b) == Yields(ts + [t]) + Yields(us);
    assert Yields(ts + [t]) == Yield(t);
    assert Derivation(g, b) && Root(g, b) == g.rules[r].lhs && Yield(b)[0] == x;
  }

  lemma LeafBegins(g: Grammar, x: nat)
    ensures Begins(g, x, x)
  {
    assert Derivation(g, Leaf(x)) && Root(g, Leaf(x)) == x && Yield(Leaf(x)) == [x];
  }

  // ----- completeness -----

  ghost predicate LambdaClosed(g: Grammar, lambda: set<nat>) {
    forall r :: 0 <= r < |g.rules| && Open(g, lambda, r, |g.rules[r].rhs|) ==> g.rules[r].lhs in lambda
  }

  lemma {:induction false} LambdaComplete(g: Grammar, lambda: set<nat>, t: Tree)
    requires g.Formed() && LambdaClosed(g, lambda) && Derivation(g, t) && Yield(t) == []
    ensures t.Branch? && Root(g, t) in lambda
    decreases t
  {
    var r, kids := t.rule, t.kids;
    forall j | 0 <= j < |kids| ensures ItemNullable(lambda, g.rules[r].rhs[j]) {
      EachYieldsNothing(kids, j);
      LambdaComplete(g, lambda, kids[j]);
      NonterminalItem(g, r, j, Root(g, kids[j]));
    }
  }

  /** An element that a nonterminal may stand for is that nonterminal. */
  lemma NonterminalItem(g: Grammar, r: nat, j: nat, s: nat)
    requires g.Formed() && r < |g.rules| && j < |g.rules[r].rhs| && Covers(g.rules[r].rhs[j], s)
    requires s >= g.nterm
    ensures g.rules[r].rhs[j] == One(s)
  {
    assert g.ItemOk(g.rules[r].rhs[j]);
  }

  /** What an element at an open position contributes is in the first set of the left side. */
  ghost predicate Contributed(g: Grammar, first: seq<set<nat>>, lhs: nat, x: Item)
    requires lhs < |first| == g.nsym
  {
    match x
    case Many(subs) => forall j :: 0 <= j < |subs| ==> subs[j] in first[lhs]
    case One(s) => if s < g.nterm then s in first[lhs] else s < g.nsym && first[s] <= first[lhs]
  }

  ghost predicate FirstClosed(g: Grammar, lambda: set<nat>, first: seq<set<nat>>) {
    |first| == g.nsym && (forall r :: 0 <= r < |g.rules| ==> g.rules[r].lhs < g.nsym) &&
    forall r, i :: 0 <= r < |g.rules| && 0 <= i < |g.rules[r].rhs| && Open(g, lambda, r, i) ==>
      Contributed(g, first, g.rules[r].lhs, g.rules[r].rhs[i])
  }

  lemma {:induction false} FirstComplete(g: Grammar, lambda: set<nat>, first: seq<set<nat>>, t: Tree, x: nat)
    requires g.Formed() && LambdaClosed(g, lambda) && FirstClosed(g, lambda, first)
    requires Derivation(g, t) && Yield(t) != [] && Yield(t)[0] == x && x < g.nterm && t.Branch?
    ensures Root(g, t) < g.nsym && x in first[Root(g, t)]
    decreases t
  {
    var r, kids := t.rule, t.kids;
    var i := FirstYield(kids);
    forall j | 0 <= j < i ensures ItemNullable(lambda, g.rules[r].rhs[j]) {
      LambdaComplete(g, lambda, kids[j]);
      NonterminalItem(g, r, j, Root(g, kids[j]));
    }
    assert Open(g, lambda, r, i);
    assert Contributed(g, first, g.rules[r].lhs, g.rules[r].rhs[i]);
    if kids[i].Branch? {
      FirstComplete(g, lambda, first, kids[i], x);
      NonterminalItem(g, r, i, Root(g, kids[i]));
    }
  }

  // ----- the loops -----

  /** Marked symbols are nullable nonterminals; sets hold terminals the symbols can begin with. */
  ghost predicate LambdaSound(g: Grammar, lambda: set<nat>) {
    forall s :: s in lambda ==> g.nterm <= s < g.nsym && Nullable(g, s)
  }

  ghost predicate FirstSound(g: Grammar, first: seq<set<nat>>) {
    |first| == g.nsym && forall s, x :: 0 <= s < g.nsym && x in first[s] ==> x < g.nterm && Begins(g, s, x)
  }

  function Range(n: nat): (r: set<nat>)
    ensures |r| == n && forall i :: i in r <==> 0 <= i < n
  {
    if n == 0 then {} else Range(n - 1) + {n - 1}
  }

  lemma {:induction false} Smaller<T>(a: set<T>, b: set<T>)
    requires a <= b
    ensures |a| <= |b|
    decreases a
  {
    if x :| x in a { Smaller(a - {x}, b - {x}); }
  }

  /** The number of elements of all sets. */
  function Total(first: seq<set<nat>>): nat {
    if first == [] then 0 else Total(first[..|first| - 1]) + |first[|first| - 1]|
  }

  lemma {:induction false} TotalBound(first: seq<set<nat>>, n: nat)
    requires forall i, x :: 0 <= i < |first| && x in first[i] ==> x < n
    ensures Total(first) <= |first| * n
    decreases |first|
  {
    if first != [] {
      var k := |first| - 1;
      TotalBound(first[..k], n);
      Smaller(first[k], Range(n));
      assert |first| * n == k * n + n;
    }
  }

  lemma {:induction false} TotalGrows(first: seq<set<nat>>, s: nat, b: set<nat>)
    requires s < |first| && first[s] <= b
    ensures Total(first[s := b]) >= Total(first)
    ensures b != first[s] ==> Total(first[s := b]) > Total(first)
    decreases |first|
  {
    var k := |first| - 1;
    Smaller(first[s], b);
    if b != first[s] {
      var x :| x in b && x !in first[s];
      Smaller(first[s], b - {x});
    }
    if s < k {
      TotalGrows(first[..k], s, b);
      assert first[s := b][..k] == first[..k][s := b];
    } else {
      assert first[s := b][..k] == first[..k];
    }
  }

  /** One rule of the first loop: whether every element of the right side is marked. */
  method AllMarked(g: Grammar, lambda: set<nat>, r: nat) returns (all: bool)
    requires r < |g.rules|
    ensures all <==> Open(g, lambda, r, |g.rules[r].rhs|)
  {
    for i := 0 to |g.rules[r].rhs|
      invariant Open(g, lambda, r, i)
    {
      var x := g.rules[r].rhs[i];
      if !(x.One? && x.sym in lambda) {
        assert !ItemNullable(lambda, g.rules[r].rhs[i]);
        return false;
      }
    }
    all := true;
  }

  /** The first loop of `FindFirstSets`. */
  method FindLambda(g: Grammar) returns (lambda: set<nat>)
    requires g.Formed()
    ensures LambdaSound(g, lambda) && LambdaClosed(g, lambda)
  {
    hide LambdaSound, Open;
    lambda := {};
    assert LambdaSound(g, lambda) by { NoneMarked(g); }
    var progress := true;
    while progress
      invariant LambdaSound(g, lambda) && (!progress ==> LambdaClosed(g, lambda))
      decreases g.nsym - |lambda|, progress
    {
      LambdaFits(g, lambda);
      progress := false;
      ghost var before := lambda;
      for r := 0 to |g.rules|
        invariant LambdaSound(g, lambda) && before <= lambda && (progress ==> |lambda| > |before|)
        invariant !progress ==> lambda == before && RulesClosed(g, lambda, r)
      {
        if g.rules[r].lhs !in lambda {
          var all := AllMarked(g, lambda, r);
          if all {
            OneMoreMarked(g, lambda, r);
            Smaller(before, lambda);
            lambda := lambda + {g.rules[r].lhs};
            progress := true;
          }
        }
      }
      LambdaFits(g, lambda);
    }
  }

  lemma NoneMarked(g: Grammar)
    ensures LambdaSound(g, {})
  {}

  lemma OneMoreMarked(g: Grammar, lambda: set<nat>, r: nat)
    requires g.Formed() && LambdaSound(g, lambda) && r < |g.rules| && Open(g, lambda, r, |g.rules[r].rhs|)
    ensures LambdaSound(g, lambda + {g.rules[r].lhs})
  {
    hide Nullable;
    RuleNullable(g, lambda, r);
  }

  ghost predicate RulesClosed(g: Grammar, lambda: set<nat>, n: nat) {
    forall r :: 0 <= r < n <= |g.rules| && Open(g, lambda, r, |g.rules[r].rhs|) ==> g.rules[r].lhs in lambda
  }

  lemma LambdaFits(g: Grammar, lambda: set<nat>)
    requires LambdaSound(g, lambda)
    ensures |lambda| <= g.nsym
  {
    Smaller(lambda, Range(g.nsym));
  }

  /** Everything the first `n` elements of the rule contribute is in the set of its left side. */
  ghost predicate Served(g: Grammar, lambda: set<nat>, first: seq<set<nat>>, r: nat, n: nat)
    requires r < |g.rules| && n <= |g.rules[r].rhs|
  {
    g.rules[r].lhs < |first| == g.nsym &&
    forall i :: 0 <= i < n && Open(g, lambda, r, i) ==> Contributed(g, first, g.rules[r].lhs, g.rules[r].rhs[i])
  }

  /** A bigger set for the left side of a rule. */
  lemma Grown(g: Grammar, first: seq<set<nat>>, lhs: nat, b: set<nat>)
    requires FirstSound(g, first) && lhs < g.nsym && first[lhs] <= b
    requires forall x :: x in b ==> x < g.nterm && Begins(g, lhs, x)
    ensures FirstSound(g, first[lhs := b]) && Total(first[lhs := b]) >= Total(first)
    ensures b != first[lhs] ==> Total(first[lhs := b]) > Total(first)
  {
    TotalGrows(first, lhs, b);
  }

  /** What one element adds to the set of its rule's left side. */
  function Added(g: Grammar, first: seq<set<nat>>, lhs: nat, x: Item): set<nat>
    requires lhs < |first| == g.nsym
  {
    match x
    case Many(subs) => set j | 0 <= j < |subs| :: subs[j]
    case One(s) => if s < g.nterm then {s} else if s < g.nsym then first[s] else {}
  }

  lemma AddedBegins(g: Grammar, lambda: set<nat>, first: seq<set<nat>>, r: nat, i: nat, x: nat)
    requires g.Formed() && LambdaSound(g, lambda) && FirstSound(g, first) && r < |g.rules| && i < |g.rules[r].rhs|
    requires Open(g, lambda, r, i) && x in Added(g, first, g.rules[r].lhs, g.rules[r].rhs[i])
    ensures x < g.nterm && Begins(g, g.rules[r].lhs, x)
  {
    assert g.ItemOk(g.rules[r].rhs[i]);
    LeafBegins(g, x);
    match g.rules[r].rhs[i]
    case Many(subs) => RuleBegins(g, lambda, r, i, x, x);
    case One(s) => RuleBegins(g, lambda, r, i, s, x);
  }

  /** One rule of the second loop of `FindFirstSets`; `progress` counts the additions that changed something. */
  method ServeRule(g: Grammar, lambda: set<nat>, first: seq<set<nat>>, r: nat)
    returns (next: seq<set<nat>>, progress: bool)
    requires g.Formed() && LambdaSound(g, lambda) && FirstSound(g, first) && r < |g.rules|
    ensures FirstSound(g, next) && Total(next) >= Total(first) && (progress ==> Total(next) > Total(first))
    ensures !progress ==> next == first && Served(g, lambda, first, r, |g.rules[r].rhs|)
  {
    hide FirstSound, LambdaSound, Begins, Total;
    var lhs := g.rules[r].lhs;
    SoundSize(g, first);
    next, progress := first, false;
    for i := 0 to |g.rules[r].rhs|
      invariant FirstSound(g, next) && |next| == g.nsym && Open(g, lambda, r, i) && Total(next) >= Total(first)
      invariant if progress then Total(next) > Total(first) else next == first && Served(g, lambda, first, r, i)
    {
      var x := g.rules[r].rhs[i];
      assert g.ItemOk(x);
      var more := Added(g, next, lhs, x);
      forall y | y in more ensures y < g.nterm && Begins(g, lhs, y) { AddedBegins(g, lambda, next, r, i, y); }
      if !(more <= next[lhs]) {
        Enlarged(g, next, lhs, more);
        next := next[lhs := next[lhs] + more];
        progress := true;
      } else {
        AlreadyThere(g, next, lhs, x);
      }
      if !(x.One? && x.sym in lambda) {
        Blocked(g, lambda, r, i);
        return;
      }
    }
  }

  lemma SoundSize(g: Grammar, first: seq<set<nat>>)
    requires FirstSound(g, first)
    ensures |first| == g.nsym
  {}

  lemma Enlarged(g: Grammar, first: seq<set<nat>>, lhs: nat, more: set<nat>)
    requires FirstSound(g, first) && lhs < g.nsym == |first| && !(more <= first[lhs])
    requires forall x :: x in more ==> x < g.nterm && Begins(g, lhs, x)
    ensures var next := first[lhs := first[lhs] + more]; FirstSound(g, next) && Total(next) > Total(first)
  {
    hide Begins, Total;
    Grown(g, first, lhs, first[lhs] + more);
  }

  lemma AlreadyThere(g: Grammar, first: seq<set<nat>>, lhs: nat, x: Item)
    requires lhs < |first| == g.nsym && g.ItemOk(x) && Added(g, first, lhs, x) <= first[lhs]
    ensures Contributed(g, first, lhs, x)
  {}

  /** Past an element that is not nullable nothing is open. */
  lemma Blocked(g: Grammar, lambda: set<nat>, r: nat, i: nat)
    requires r < |g.rules| && i < |g.rules[r].rhs| && !ItemNullable(lambda, g.rules[r].rhs[i])
    ensures forall j :: i < j <= |g.rules[r].rhs| ==> !Open(g, lambda, r, j)
  {}

  /**
   `FindFirstSets`: it ends; a symbol is marked exactly when it derives the empty string, and a terminal is in the
   first set of a nonterminal exactly when that derives a form beginning with it.
   */
  method FindFirstSets(g: Grammar) returns (lambda: set<nat>, first: seq<set<nat>>)
    requires g.Formed()
    ensures |first| == g.nsym && forall s :: g.nterm <= s < g.nsym ==> (s in lambda <==> Nullable(g, s))
    ensures forall s, x: nat :: g.nterm <= s < g.nsym ==> (x in first[s] <==> x < g.nterm && Begins(g, s, x))
  {
    lambda := FindLambda(g);
    first := seq(g.nsym, _ => {});
    var progress := true;
    while progress
      invariant FirstSound(g, first) && |first| == g.nsym
      invariant !progress ==> forall r :: 0 <= r < |g.rules| ==> Served(g, lambda, first, r, |g.rules[r].rhs|)
      decreases g.nsym * g.nterm - Total(first), progress
    {
      FirstFits(g, first);
      progress := false;
      ghost var before := first;
      for r := 0 to |g.rules|
        invariant FirstSound(g, first) && |first| == g.nsym
        invariant if progress then Total(first) > Total(before) else first == before
        invariant !progress ==> forall q :: 0 <= q < r ==> Served(g, lambda, first, q, |g.rules[q].rhs|)
      {
        var changed: bool;
        first, changed := ServeRule(g, lambda, first, r);
        progress := progress || changed;
      }
      FirstFits(g, first);
    }
    ExactSets(g, lambda, first);
  }

  lemma FirstFits(g: Grammar, first: seq<set<nat>>)
    requires FirstSound(g, first)
    ensures Total(first) <= g.nsym * g.nterm
  {
    TotalBound(first, g.nterm);
  }

  lemma ExactSets(g: Grammar, lambda: set<nat>, first: seq<set<nat>>)
    requires g.Formed() && LambdaSound(g, lambda) && LambdaClosed(g, lambda) && FirstSound(g, first)
    requires forall r :: 0 <= r < |g.rules| ==> Served(g, lambda, first, r, |g.rules[r].rhs|)
    ensures forall s :: g.nterm <= s < g.nsym ==> (s in lambda <==> Nullable(g, s))
    ensures forall s, x: nat :: g.nterm <= s < g.nsym ==> (x in first[s] <==> x < g.nterm && Begins(g, s, x))
  {
    forall s | g.nterm <= s < g.nsym && Nullable(g, s) ensures s in lambda {
      var t :| Derivation(g, t) && Root(g, t) == s && Yield(t) == [];
      LambdaComplete(g, lambda, t);
    }
    assert FirstClosed(g, lambda, first);
    forall s, x: nat | g.nterm <= s < g.nsym && x < g.nterm && Begins(g, s, x) ensures x in first[s] {
      var t :| Derivation(g, t) && Root(g, t) == s && Yield(t) != [] && Yield(t)[0] == x;
      FirstComplete(g, lambda, first, t, x);
    }
  }
}
