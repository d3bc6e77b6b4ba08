/**
 When the loop of `Parse` ends. It runs for ever on a token exactly when the states on the stack come to be what they
 were; and it does not where no symbol of the grammar derives itself.
 */
module LrTermination {
  import opened Grammars
  import opened LrDriver
  import opened LrTables
  import opened LrGenerator
  import opened LrLookahead
  import opened LrAcceptance
  import opened LrCompleteness
  import FirstSets
  import Lr0

  // ----- the states alone decide -----

  function States(es: seq<Entry>): (r: seq<nat>)
    ensures |r| == |es| && forall i :: 0 <= i < |es| ==> r[i] == es[i].state
  {
    seq(|es|, i requires 0 <= i < |es| => es[i].state)
  }

  /** The same states on the stack, and the token used up in both or in neither. */
  ghost predicate Alike(p: Parser, p': Parser) { States(p.stack) == States(p'.stack) && p.waiting == p'.waiting }

  lemma AlikeCut(es: seq<Entry>, fs: seq<Entry>, m: nat)
    requires States(es) == States(fs) && m <= |es|
    ensures |es| == |fs| && States(es[..m]) == States(fs[..m])
    ensures m > 0 ==> es[m - 1].state == fs[m - 1].state
  {
    assert |States(es)| == |es| && |States(fs)| == |fs|;
    forall i | 0 <= i < m ensures es[..m][i].state == fs[..m][i].state {
      assert States(es)[i] == States(fs)[i];
    }
    if m > 0 { assert States(es)[m - 1] == States(fs)[m - 1]; }
  }

  lemma PushAlike(p: Parser, p': Parser, e: Entry, f: Entry, depth: nat)
    requires Alike(p, p') && e.state == f.state
    ensures Alike(Push(p, e, depth), Push(p', f, depth))
  {
    AlikeCut(p.stack, p'.stack, |p.stack|);
    assert States(p.stack + [e]) == States(p.stack) + [e.state];
    assert States(p'.stack + [f]) == States(p'.stack) + [f.state];
  }

  lemma ReduceAlike(g: Grammar, ts: Tables, p: Parser, p': Parser, r: nat, depth: nat)
    requires Alike(p, p')
    ensures Alike(Reduce(g, ts, p, r, depth), Reduce(g, ts, p', r, depth))
  {
    hide Trees, Push, States;
    var n := ts.len(r);
    AlikeCut(p.stack, p'.stack, |p.stack|);
    if r < |g.rules| && n < |p.stack| {
      var m := |p.stack| - n;
      AlikeCut(p.stack, p'.stack, m);
      var below, below' := p.(stack := p.stack[..m]), p'.(stack := p'.stack[..m]);
      var act := ts.go(p.stack[m - 1].state, g.rules[r].lhs);
      var t, t' := Branch(r, Trees(p.stack[m..])), Branch(r, Trees(p'.stack[m..]));
      if act.ShiftTo? { PushAlike(below, below', Entry(act.state, t), Entry(act.state, t'), depth); }
    }
  }

  lemma TurnAlike(g: Grammar, ts: Tables, p: Parser, p': Parser, t: nat, depth: nat)
    requires Alike(p, p')
    ensures Alike(Turn(g, ts, p, t, depth), Turn(g, ts, p', t, depth))
  {
    hide Reduce, States, Push;
    AlikeCut(p.stack, p'.stack, |p.stack|);
    if p.stack != [] && p.waiting {
      var act := ts.act(p.stack[|p.stack| - 1].state, t);
      if act.ShiftTo? {
        PushAlike(p, p', Entry(act.state, Leaf(t)), Entry(act.state, Leaf(t)), depth);
      } else if act.ReduceBy? {
        ReduceAlike(g, ts, p, p', act.rule, depth);
      }
    }
  }

  lemma {:induction false} TurnsAlike(g: Grammar, ts: Tables, p: Parser, p': Parser, t: nat, depth: nat, n: nat)
    requires Alike(p, p')
    ensures Alike(Turns(g, ts, p, t, depth, n), Turns(g, ts, p', t, depth, n))
    decreases n
  {
    hide Turn, Alike;
    if n > 0 {
      TurnAlike(g, ts, p, p', t, depth);
      TurnsAlike(g, ts, Turn(g, ts, p, t, depth), Turn(g, ts, p', t, depth), t, depth, n - 1);
    }
  }

  lemma {:induction false} TurnsJoin(g: Grammar, ts: Tables, p: Parser, t: nat, depth: nat, n: nat, m: nat)
    ensures Turns(g, ts, Turns(g, ts, p, t, depth, n), t, depth, m) == Turns(g, ts, p, t, depth, n + m)
    decreases n
  {
    hide Turn;
    if n > 0 { TurnsJoin(g, ts, Turn(g, ts, p, t, depth), t, depth, n - 1, m); }
  }

  /** A loop that has ended stays ended. */
  lemma EndStays(g: Grammar, ts: Tables, p: Parser, t: nat, depth: nat, n: nat, m: nat)
    requires n <= m && EndsWithin(g, ts, p, t, depth, n)
    ensures Turns(g, ts, p, t, depth, m) == Turns(g, ts, p, t, depth, n)
  {
    TurnsJoin(g, ts, p, t, depth, n, m - n);
    TurnsIdle(g, ts, Turns(g, ts, p, t, depth, n), t, depth, m - n);
  }

  // ----- for ever means round and round -----

  /** After `i` turns the loop still runs, and after `j` it has the states it had after `i`. */
  ghost predicate Recurs(g: Grammar, ts: Tables, p: Parser, t: nat, depth: nat, i: nat, j: nat) {
    i < j && !EndsWithin(g, ts, p, t, depth, i) &&
    Alike(Turns(g, ts, p, t, depth, i), Turns(g, ts, p, t, depth, j))
  }

  lemma {:induction false} RecurringRuns(g: Grammar, ts: Tables, p: Parser, t: nat, depth: nat, i: nat, j: nat, k: nat)
    requires Recurs(g, ts, p, t, depth, i, j)
    ensures !EndsWithin(g, ts, p, t, depth, k)
    decreases k
  {
    hide Turns;
    if k <= i {
      if EndsWithin(g, ts, p, t, depth, k) { EndStays(g, ts, p, t, depth, k, i); }
    } else if k < j {
      if EndsWithin(g, ts, p, t, depth, k) {
        EndStays(g, ts, p, t, depth, k, j);
        AlikeRuns(Turns(g, ts, p, t, depth, i), Turns(g, ts, p, t, depth, j));
      }
    } else {
      var q, q' := Turns(g, ts, p, t, depth, i), Turns(g, ts, p, t, depth, j);
      RecurringRuns(g, ts, p, t, depth, i, j, i + (k - j));
      TurnsAlike(g, ts, q, q', t, depth, k - j);
      TurnsJoin(g, ts, p, t, depth, i, k - j);
      TurnsJoin(g, ts, p, t, depth, j, k - j);
      AlikeRuns(Turns(g, ts, p, t, depth, i + (k - j)), Turns(g, ts, p, t, depth, k));
    }
  }

  lemma AlikeRuns(p: Parser, p': Parser)
    requires Alike(p, p')
    ensures p.stack == [] <==> p'.stack == []
    ensures p.waiting == p'.waiting
  {
    assert |States(p.stack)| == |p.stack| && |States(p'.stack)| == |p'.stack|;
  }

  /** The sequences of numbers below `n` that are no longer than `size`. */
  ghost function Stacks(n: nat, size: nat): set<seq<nat>> {
    if size == 0 then {[]}
    else Stacks(n, size - 1) + set s, x | s in Stacks(n, size - 1) && 0 <= x < n :: s + [x]
  }

  lemma {:induction false} InStacks(n: nat, size: nat, s: seq<nat>)
    requires |s| <= size && forall i :: 0 <= i < |s| ==> s[i] < n
    ensures s in Stacks(n, size)
    decreases size
  {
    if |s| < size {
      InStacks(n, size - 1, s);
    } else if s != [] {
      var k := |s| - 1;
      InStacks(n, size - 1, s[..k]);
      assert s == s[..k] + [s[k]];
    }
  }

  /** The states after each of the first turns. */
  ghost function History(g: Grammar, ts: Tables, p: Parser, t: nat, depth: nat, n: nat): (r: seq<seq<nat>>)
    ensures |r| == n && forall k :: 0 <= k < n ==> r[k] == States(Turns(g, ts, p, t, depth, k).stack)
  {
    seq(n, k requires 0 <= k < n => States(Turns(g, ts, p, t, depth, k).stack))
  }

  /** No turn makes the stack higher than its depth allows, or more of the tokens than it uses up. */
  lemma TurnSmall(g: Grammar, ts: Tables, p: Parser, t: nat, depth: nat)
    ensures var q := Turn(g, ts, p, t, depth);
      |q.stack| <= depth || |q.stack| <= |p.stack|
    ensures var q := Turn(g, ts, p, t, depth);
      if p.stack != [] && p.waiting && q.waiting then q.shifted == p.shifted else |q.shifted| <= |p.shifted| + 1
  {}

  /** In the middle of a run: what `DriverSound` promises, and a stack within its depth. */
  ghost predicate Sound(g: Grammar, a: Automaton, p: Parser, depth: nat) {
    Good(g, a, p) && (p.stack != [] ==> p.result.Going?) && |p.stack| <= depth + 1
  }

  lemma {:induction false} TurnsSound(g: Grammar, a: Automaton, ts: Tables, p: Parser, t: nat, depth: nat, n: nat)
    requires g.Valid() && TablesOk(g, a, ts) && Sound(g, a, p, depth) && t < g.nterm
    ensures Sound(g, a, Turns(g, ts, p, t, depth, n), depth)
    decreases n
  {
    hide TablesOk, Good, Turn;
    if n > 0 {
      TurnOk(g, a, ts, p, t, depth);
      TurnSmall(g, ts, p, t, depth);
      TurnsSound(g, a, ts, Turn(g, ts, p, t, depth), t, depth, n - 1);
    }
  }

  lemma StatesKnown(g: Grammar, a: Automaton, ts: Tables, p: Parser, depth: nat)
    requires TablesOk(g, a, ts) && Sound(g, a, p, depth)
    ensures States(p.stack) in Stacks(|a.configs|, depth + 1)
  {
    hide Read, Sentence, Step, AutomatonOk;
    forall i | 0 <= i < |p.stack| ensures p.stack[i].state < |a.configs| { StatesInRange(g, a, p.stack, i); }
    InStacks(|a.configs|, depth + 1, States(p.stack));
  }

  /** Of more stacks than there can be two are the same. */
  lemma SomeRecur(g: Grammar, a: Automaton, ts: Tables, p: Parser, t: nat, depth: nat) returns (i: nat, j: nat)
    requires g.Valid() && TablesOk(g, a, ts) && Sound(g, a, p, depth) && t < g.nterm
    ensures i < j <= |Stacks(|a.configs|, depth + 1)|
    ensures States(Turns(g, ts, p, t, depth, i).stack) == States(Turns(g, ts, p, t, depth, j).stack)
  {
    hide TablesOk, Sound, Turns, Stacks;
    var all := Stacks(|a.configs|, depth + 1);
    var h := History(g, ts, p, t, depth, |all| + 1);
    forall k | 0 <= k < |h| ensures h[k] in all {
      TurnsSound(g, a, ts, p, t, depth, k);
      StatesKnown(g, a, ts, Turns(g, ts, p, t, depth, k), depth);
    }
    if Lr0.NoDup(h) {
      Lr0.Cardinal(h);
      Lr0.Subset(Lr0.Elems(h), all);
    }
    i, j :| 0 <= i < j < |h| && h[i] == h[j];
  }

  /**
   The loop on a token never ends if and only if, while it runs, the states on the stack come to be what they were
   after fewer turns.
   */
  lemma LoopsForEver(g: Grammar, a: Automaton, ts: Tables, p: Parser, t: nat, depth: nat)
    requires g.Valid() && TablesOk(g, a, ts) && Sound(g, a, p, depth) && t < g.nterm
    ensures (forall n :: !EndsWithin(g, ts, p, t, depth, n)) <==> exists i, j :: Recurs(g, ts, p, t, depth, i, j)
  {
    hide TablesOk, Sound, Turns;
    if forall n :: !EndsWithin(g, ts, p, t, depth, n) {
      var i, j := SomeRecur(g, a, ts, p, t, depth);
      assert !EndsWithin(g, ts, p, t, depth, i) && !EndsWithin(g, ts, p, t, depth, j);
      assert Recurs(g, ts, p, t, depth, i, j);
    }
    if i, j :| Recurs(g, ts, p, t, depth, i, j) {
      forall n ensures !EndsWithin(g, ts, p, t, depth, n) { RecurringRuns(g, ts, p, t, depth, i, j, n); }
    }
  }

  // ----- grammars in which no symbol derives itself -----

  /** No rule starts a derivation that comes back to its left side alone. */
  ghost predicate Acyclic(g: Grammar) {
    forall t :: Derivation(g, t) && t.Branch? ==> Yield(t) != [Root(g, t)]
  }

  /** The symbol derives the other, or is it. */
  ghost predicate ComesTo(g: Grammar, s: nat, x: nat) {
    exists t :: Derivation(g, t) && Root(g, t) == s && Yield(t) == [x]
  }

  ghost function Reached(g: Grammar, s: nat): set<nat> { set x | 0 <= x < g.nsym && ComesTo(g, s, x) }

  ghost function Rank(g: Grammar, s: nat): nat { |Reached(g, s)| }

  lemma {:induction false} RankBound(n: nat, a: set<nat>)
    requires forall x :: x in a ==> x < n
    ensures |a| <= n
  {
    var all := FirstSets.Range(n);
    assert a <= all;
    Lr0.Subset(a, all);
  }

  lemma SingleYield(t: Tree)
    ensures Yields([t]) == Yield(t)
  {
    assert Yields([t]) == Yields([]) + Yield(t) == Yield(t);
  }

  lemma JoinedYields(a: seq<Tree>, t: Tree, b: seq<Tree>)
    ensures Yields(a + [t] + b) == Yields(a) + Yield(t) + Yields(b)
  {
    hide Yields, Yield;
    YieldsJoin(a + [t], b);
    YieldsJoin(a, [t]);
    SingleYield(t);
  }

  lemma LastVanishes(g: Grammar, r: nat, i: nat, k: nat)
    requires r < |g.rules| && i < k <= |g.rules[r].rhs| && Vanish(g, r, i, k)
    ensures CanVanish(g, g.rules[r].rhs[k - 1]) && Vanish(g, r, i, k - 1)
  {}

  lemma NoYield()
    ensures Yields([]) == []
  {}

  lemma {:induction false} VanishingKids(g: Grammar, r: nat, i: nat, k: nat) returns (kids: seq<Tree>)
    requires r < |g.rules| && i <= k <= |g.rules[r].rhs| && Vanish(g, r, i, k)
    ensures |kids| == k - i && Yields(kids) == []
    ensures forall j :: 0 <= j < k - i ==> Derivation(g, kids[j]) && Covers(g.rules[r].rhs[i + j], Root(g, kids[j]))
    decreases k - i
  {
    hide Derivation, Covers, Yield, Yields, Root, Vanish;
    kids := [];
    NoYield();
    if i < k {
      LastVanishes(g, r, i, k);
      var us := VanishingKids(g, r, i, k - 1);
      var x := g.rules[r].rhs[k - 1];
      var t :| Derivation(g, t) && Root(g, t) == x.sym && Yield(t) == [];
      OneCovers(x.sym);
      kids := us + [t];
      YieldsJoin(us, [t]);
      SingleYield(t);
    }
  }

  lemma BranchDerives(g: Grammar, r: nat, kids: seq<Tree>)
    requires r < |g.rules| && |kids| == |g.rules[r].rhs|
    requires forall j :: 0 <= j < |kids| ==> Covers(g.rules[r].rhs[j], Root(g, kids[j])) && Derivation(g, kids[j])
    ensures var u := Branch(r, kids); Derivation(g, u) && Root(g, u) == g.rules[r].lhs && Yield(u) == Yields(kids)
  {
    hide Covers, Yields;
  }

  /** Where the other elements of a rule vanish, its left side derives what the remaining one derives. */
  lemma Climbs(g: Grammar, r: nat, i: nat, t: Tree) returns (u: Tree)
    requires r < |g.rules| && i < |g.rules[r].rhs| && Derivation(g, t) && Covers(g.rules[r].rhs[i], Root(g, t))
    requires Vanish(g, r, 0, i) && Vanish(g, r, i + 1, |g.rules[r].rhs|)
    ensures u.Branch? && Derivation(g, u) && Root(g, u) == g.rules[r].lhs && Yield(u) == Yield(t)
  {
    hide Vanish, Covers, Derivation, Yield, Yields, Root;
    var n := |g.rules[r].rhs|;
    var before := VanishingKids(g, r, 0, i);
    var after := VanishingKids(g, r, i + 1, n);
    var kids := before + [t] + after;
    u := Branch(r, kids);
    JoinedYields(before, t, after);
    forall j | 0 <= j < n ensures Covers(g.rules[r].rhs[j], Root(g, kids[j])) && Derivation(g, kids[j]) {
      if j > i { assert kids[j] == after[j - i - 1]; }
    }
    BranchDerives(g, r, kids);
  }

  /** The symbol that a rule comes down to is of lower rank. */
  lemma RankFalls(g: Grammar, r: nat, i: nat, s: nat)
    requires g.Valid() && Acyclic(g) && r < |g.rules| && i < |g.rules[r].rhs| && g.rules[r].rhs[i] == One(s)
    requires Vanish(g, r, 0, i) && Vanish(g, r, i + 1, |g.rules[r].rhs|)
    ensures Rank(g, s) < Rank(g, g.rules[r].lhs)
  {
    hide Vanish;
    var x := g.rules[r].lhs;
    forall y | y in Reached(g, s) ensures y in Reached(g, x) && y != x {
      var t :| Derivation(g, t) && Root(g, t) == s && Yield(t) == [y];
      var u := Climbs(g, r, i, t);
    }
    var self := Leaf(x);
    assert Derivation(g, self) && Root(g, self) == x && Yield(self) == [x];
    assert x in Reached(g, x) && x !in Reached(g, s);
    Lr0.Subset(Reached(g, s), Reached(g, x) - {x});
  }

  // ----- so trees are no higher than what they yield allows -----

  function Height(t: Tree): nat
    decreases t, 0
  {
    match t
    case Leaf(_) => 0
    case Branch(_, kids) => Heights(kids) + 1
  }

  function Heights(ts: seq<Tree>): nat
    decreases ts, 1
  {
    if ts == [] then 0
    else
      var n := |ts| - 1;
      if Heights(ts[..n]) > Height(ts[n]) then Heights(ts[..n]) else Height(ts[n])
  }

  lemma {:induction false} HeightsBound(ts: seq<Tree>, h: nat)
    requires forall i :: 0 <= i < |ts| ==> Height(ts[i]) <= h
    ensures Heights(ts) <= h
    decreases |ts|
  {
    if ts != [] { HeightsBound(ts[..|ts| - 1], h); }
  }

  lemma {:induction false} KidHeight(ts: seq<Tree>, i: nat)
    requires i < |ts|
    ensures Height(ts[i]) <= Heights(ts)
    decreases |ts|
  {
    if i < |ts| - 1 { KidHeight(ts[..|ts| - 1], i); }
  }

  lemma KidYields(ts: seq<Tree>, i: nat)
    requires i < |ts|
    ensures Yields(ts) == Yields(ts[..i]) + Yield(ts[i]) + Yields(ts[i + 1..])
  {
    hide Yields, Yield;
    JoinedYields(ts[..i], ts[i], ts[i + 1..]);
    assert ts == ts[..i] + [ts[i]] + ts[i + 1..];
  }

  /** The height that `n` yielded symbols allow a tree whose root is of rank `k`. */
  function Allowed(g: Grammar, n: nat, k: nat): nat { n * (g.nsym + 1) + k + 1 }

  lemma Times(a: nat, b: nat, c: nat)
    requires a <= b
    ensures a * c <= b * c
  {}


  lemma AllowedMore(g: Grammar, n: nat, k: nat, m: nat, l: nat)
    requires (n == m && k < l) || (n < m && k <= g.nsym)
    ensures Allowed(g, n, k) + 1 <= Allowed(g, m, l)
  {
    if n < m { Times(n + 1, m, g.nsym + 1); }
  }

  /** A child that yields all its parent yields is the only one that does not vanish. */
  lemma OnlyKid(g: Grammar, r: nat, kids: seq<Tree>, i: nat)
    requires g.Valid() && Acyclic(g) && Derivation(g, Branch(r, kids)) && i < |kids| && kids[i].Branch?
    requires |Yield(kids[i])| == |Yields(kids)|
    ensures Rank(g, Root(g, kids[i])) < Rank(g, g.rules[r].lhs)
  {
    hide Acyclic, Rank, Yield, Covers;
    KidYields(kids, i);
    forall j | 0 <= j < |kids| && j != i ensures Yield(kids[j]) == [] {
      if j < i {
        FirstSets.EachYieldsNothing(kids[..i], j);
      } else {
        FirstSets.EachYieldsNothing(kids[i + 1..], j - i - 1);
      }
    }
    AllVanish(g, r, kids, 0, i);
    AllVanish(g, r, kids, i + 1, |kids|);
    var x := g.rules[r].rhs[i];
    assert Covers(x, Root(g, kids[i])) && g.ItemOk(x);
    RootIs(g, kids[i]);
    OneItem(g, x, kids[i].rule);
    RankFalls(g, r, i, Root(g, kids[i]));
  }

  lemma RootIs(g: Grammar, t: Tree)
    requires Derivation(g, t) && t.Branch?
    ensures t.rule < |g.rules| && Root(g, t) == g.rules[t.rule].lhs
  {}

  lemma {:induction false} HeightBound(g: Grammar, t: Tree)
    requires g.Valid() && Acyclic(g) && Derivation(g, t)
    ensures Height(t) <= Allowed(g, |Yield(t)|, Rank(g, Root(g, t)))
    decreases t
  {
    hide Acyclic, Rank, Allowed, Covers;
    if t.Branch? {
      var n, k := |Yield(t)|, Rank(g, Root(g, t));
      forall i | 0 <= i < |t.kids| ensures Height(t.kids[i]) + 1 <= Allowed(g, n, k) {
        HeightBound(g, t.kids[i]);
        KidLow(g, t.rule, t.kids, i);
      }
      AllowedPositive(g, n, k);
      HeightsBound(t.kids, Allowed(g, n, k) - 1);
    }
  }

  lemma AllowedPositive(g: Grammar, n: nat, k: nat)
    ensures Allowed(g, n, k) > 0
  {}

  lemma KidLow(g: Grammar, r: nat, kids: seq<Tree>, i: nat)
    requires g.Valid() && Acyclic(g) && Derivation(g, Branch(r, kids)) && i < |kids|
    requires Height(kids[i]) <= Allowed(g, |Yield(kids[i])|, Rank(g, Root(g, kids[i])))
    ensures Height(kids[i]) + 1 <= Allowed(g, |Yields(kids)|, Rank(g, g.rules[r].lhs))
  {
    hide Acyclic, Derivation, Covers, Reached, Yields, Allowed;
    RuleOf(g, r, kids);
    var n, k, m := |Yield(kids[i])|, Rank(g, Root(g, kids[i])), |Yields(kids)|;
    KidYields(kids, i);
    RankBound(g.nsym, Reached(g, Root(g, kids[i]))) by { RanksKnown(g, Root(g, kids[i])); }
    if n < m {
      AllowedMore(g, n, k, m, Rank(g, g.rules[r].lhs));
    } else if kids[i].Branch? {
      OnlyKid(g, r, kids, i);
      AllowedMore(g, n, k, m, Rank(g, g.rules[r].lhs));
    } else {
      AllowedMore(g, 0, 0, m, Rank(g, g.rules[r].lhs));
    }
  }

  lemma RanksKnown(g: Grammar, s: nat)
    ensures forall x :: x in Reached(g, s) ==> x < g.nsym
  {}

  // ----- and have no more nodes than that -----

  /** The most nodes in a tree of height `h` whose branches have at most `b` children. */
  function Cap(b: nat, h: nat): (n: nat)
    ensures n > 0
  {
    if h == 0 then 1 else b * Cap(b, h - 1) + 1
  }

  function Longest(rules: seq<Rule>): (n: nat)
    ensures forall r :: 0 <= r < |rules| ==> |rules[r].rhs| <= n
  {
    if rules == [] then 0
    else
      var n := |rules| - 1;
      if Longest(rules[..n]) > |rules[n].rhs| then Longest(rules[..n]) else |rules[n].rhs|
  }

  lemma {:induction false} NodesBound(g: Grammar, t: Tree, h: nat)
    requires Derivation(g, t) && Height(t) <= h
    ensures Nodes(t) <= Cap(Longest(g.rules), h)
    decreases t, 0, 0
  {
    hide Cap, Longest;
    if t.Branch? {
      var b := Longest(g.rules);
      AllNodesBound(g, t.kids, |t.kids|, h - 1);
      assert t.kids[..|t.kids|] == t.kids;
      CapOf(b, h, |t.kids|);
    } else {
      CapOf(Longest(g.rules), h, 0);
    }
  }

  lemma CapOf(b: nat, h: nat, n: nat)
    requires n <= b
    ensures 1 <= Cap(b, h) && (h > 0 ==> n * Cap(b, h - 1) + 1 <= Cap(b, h))
  {
    if h > 0 { Times(n, b, Cap(b, h - 1)); }
  }

  lemma {:induction false} AllNodesBound(g: Grammar, ts: seq<Tree>, n: nat, h: nat)
    requires n <= |ts| && Heights(ts) <= h && forall i :: 0 <= i < |ts| ==> Derivation(g, ts[i])
    ensures AllNodes(ts[..n]) <= n * Cap(Longest(g.rules), h)
    decreases ts, 1, n
  {
    hide Derivation, Cap;
    if n > 0 {
      KidHeight(ts, n - 1);
      AllNodesBound(g, ts, n - 1, h);
      NodesBound(g, ts[n - 1], h);
      assert ts[..n][..n - 1] == ts[..n - 1];
      assert n * Cap(Longest(g.rules), h) == (n - 1) * Cap(Longest(g.rules), h) + Cap(Longest(g.rules), h);
    }
  }

  // ----- so the loop ends -----

  /** The nodes of the trees on a stack, but for the entry at its bottom. */
  function Weight(es: seq<Entry>): nat
    requires es != []
  {
    AllNodes(Trees(es[1..]))
  }

  lemma {:induction false} NodesJoin(a: seq<Tree>, b: seq<Tree>)
    ensures AllNodes(a + b) == AllNodes(a) + AllNodes(b)
    decreases |b|
  {
    if b == [] {
      assert a + b == a;
    } else {
      var c := b[..|b| - 1];
      assert (a + b)[..|a + b| - 1] == a + c;
      NodesJoin(a, c);
    }
  }

  lemma SingleNodes(t: Tree)
    ensures AllNodes([t]) == Nodes(t)
  {
    assert AllNodes([t]) == AllNodes([]) + Nodes(t) == Nodes(t);
  }

  /** A reduction that goes on adds one node. */
  lemma ReduceGrows(g: Grammar, ts: Tables, p: Parser, r: nat, depth: nat)
    requires p.stack != [] && Reduce(g, ts, p, r, depth).stack != []
    ensures Weight(Reduce(g, ts, p, r, depth).stack) == Weight(p.stack) + 1
  {
    hide AllNodes, Nodes;
    var n := ts.len(r);
    var m := |p.stack| - n;
    var below, kids := p.stack[..m], Trees(p.stack[m..]);
    var act := ts.go(below[m - 1].state, g.rules[r].lhs);
    var e := Entry(act.state, Branch(r, kids));
    assert Trees(p.stack[1..]) == Trees(below[1..]) + kids;
    assert Trees((below + [e])[1..]) == Trees(below[1..]) + [e.tree];
    NodesJoin(Trees(below[1..]), kids);
    NodesJoin(Trees(below[1..]), [e.tree]);
    SingleNodes(e.tree);
    BranchNodes(r, kids);
  }

  lemma BranchNodes(r: nat, kids: seq<Tree>)
    ensures Nodes(Branch(r, kids)) == AllNodes(kids) + 1
  {}

  /** Turns that do not use the token up each add one node, and shift nothing. */
  lemma {:induction false} TurnsGrow(g: Grammar, ts: Tables, p: Parser, t: nat, depth: nat, n: nat)
    requires !EndsWithin(g, ts, p, t, depth, n)
    ensures var q := Turns(g, ts, p, t, depth, n);
      p.stack != [] && Weight(q.stack) == Weight(p.stack) + n && q.shifted == p.shifted
    decreases n
  {
    hide Reduce, Weight;
    if n > 0 {
      var p1 := Turn(g, ts, p, t, depth);
      if p.stack == [] || !p.waiting {
        TurnsIdle(g, ts, p, t, depth, n);
      } else {
        if p1.stack == [] || !p1.waiting { TurnsIdle(g, ts, p1, t, depth, n - 1); }
        TurnsGrow(g, ts, p1, t, depth, n - 1);
        var act := ts.act(p.stack[|p.stack| - 1].state, t);
        if act.ReduceBy? {
          ReduceGrows(g, ts, p, act.rule, depth);
          ReduceShifts(g, ts, p, act.rule, depth);
        }
      }
    }
  }

  /** The nodes that a stack within its depth has room for, when its trees yield `n` tokens. */
  function TurnBound(g: Grammar, n: nat, depth: nat): nat {
    depth * Cap(Longest(g.rules), Allowed(g, n, g.nsym))
  }

  lemma WeightBound(g: Grammar, a: Automaton, p: Parser, depth: nat, m: nat)
    requires g.Valid() && Acyclic(g) && Sound(g, a, p, depth) && p.stack != [] && |p.shifted| <= m
    ensures Weight(p.stack) <= TurnBound(g, m, depth)
  {
    hide Acyclic, Sentence, Cap, Longest, AllNodes, Nodes, Height, Heights, Allowed, Derivation, Step, Yields, Yield;
    var es := p.stack[1..];
    var ts, h := Trees(es), Allowed(g, m, g.nsym);
    forall i | 0 <= i < |ts| ensures Derivation(g, ts[i]) && Height(ts[i]) <= h {
      assert Step(g, a, p.stack[i], p.stack[i + 1]);
      StepDerives(g, a, p.stack[i], p.stack[i + 1]);
      EntryLow(g, ts, i, m);
    }
    HeightsBound(ts, h);
    AllNodesBound(g, ts, |ts|, h);
    assert ts[..|ts|] == ts;
    Times(|ts|, depth, Cap(Longest(g.rules), h));
  }

  lemma StepDerives(g: Grammar, a: Automaton, lo: Entry, hi: Entry)
    requires Step(g, a, lo, hi)
    ensures Derivation(g, hi.tree)
  {}

  lemma EntryLow(g: Grammar, ts: seq<Tree>, i: nat, m: nat)
    requires g.Valid() && Acyclic(g) && i < |ts| && Derivation(g, ts[i]) && |Yields(ts)| <= m
    ensures Height(ts[i]) <= Allowed(g, m, g.nsym)
  {
    hide Acyclic, Derivation, Reached, Yields, Yield, Height;
    var n, s := |Yield(ts[i])|, Root(g, ts[i]);
    HeightBound(g, ts[i]);
    KidYields(ts, i);
    RanksKnown(g, s);
    RankBound(g.nsym, Reached(g, s));
    Times(n, m, g.nsym + 1);
  }

  /**
   Where no symbol derives itself, the loop ends on every token, however the tokens before it were: in at most as many
   turns as `TurnBound` says for `m` tokens, when no more are shifted.
   */
  lemma LoopEnds(g: Grammar, a: Automaton, ts: Tables, p: Parser, t: nat, depth: nat, m: nat, n: nat)
    requires g.Valid() && Acyclic(g) && TablesOk(g, a, ts) && Sound(g, a, p, depth) && t < g.nterm
    requires |p.shifted| <= m && TurnBound(g, m, depth) < n
    ensures EndsWithin(g, ts, p, t, depth, n)
  {
    hide Acyclic, TablesOk, Sound, Weight, TurnBound, Turns;
    if !EndsWithin(g, ts, p, t, depth, n) {
      TurnsGrow(g, ts, p, t, depth, n);
      TurnsSound(g, a, ts, p, t, depth, n);
      WeightBound(g, a, Turns(g, ts, p, t, depth, n), depth, m);
    }
  }

  // ----- whole inputs -----

  lemma {:induction false} TurnsShift(g: Grammar, ts: Tables, p: Parser, t: nat, depth: nat, n: nat)
    ensures |Turns(g, ts, p, t, depth, n).shifted| <= |p.shifted| + 1
    decreases n
  {
    hide Turn;
    if n > 0 {
      var p1 := Turn(g, ts, p, t, depth);
      TurnSmall(g, ts, p, t, depth);
      if p.stack == [] || !p.waiting {
        TurnsIdle(g, ts, p, t, depth, n);
      } else if p1.waiting {
        TurnsShift(g, ts, p1, t, depth, n - 1);
      } else {
        TurnsIdle(g, ts, p1, t, depth, n - 1);
      }
    }
  }

  /** The turns given to each of the first `n` tokens are enough for it. */
  ghost predicate Enough(g: Grammar, turns: nat -> nat, depth: nat, n: nat) {
    forall i :: 0 <= i < n ==> TurnBound(g, i, depth) < turns(i)
  }

  lemma {:induction false} FeedSound(g: Grammar, a: Automaton, ts: Tables, tokens: seq<nat>, turns: nat -> nat,
                                     depth: nat)
    requires g.Valid() && TablesOk(g, a, ts) && Tokens(g, tokens)
    ensures var p := Feed(g, ts, Idle, tokens, turns, depth);
      Sound(g, a, p, depth) && Sound(g, a, Begin(p), depth) && |p.shifted| <= |tokens|
    decreases |tokens|
  {
    hide TablesOk, Good, Turns;
    if tokens == [] {
      IdleGood(g, a);
    } else {
      var n := |tokens| - 1;
      FeedSound(g, a, ts, tokens[..n], turns, depth);
      var q := Feed(g, ts, Idle, tokens[..n], turns, depth);
      TurnsSound(g, a, ts, Begin(q), tokens[n], depth, turns(n));
      TurnsShift(g, ts, Begin(q), tokens[n], depth, turns(n));
    }
    BeginOk(g, a, Feed(g, ts, Idle, tokens, turns, depth));
  }

  /**
   Whatever the tokens, with that many turns each of them is used up or stops the parser; more turns change nothing, so
   this is the loop without a bound.
   */
  lemma {:induction false} EveryTokenEnds(g: Grammar, a: Automaton, ts: Tables, tokens: seq<nat>, turns: nat -> nat,
                                          more: nat -> nat, depth: nat)
    requires g.Valid() && Acyclic(g) && TablesOk(g, a, ts) && Tokens(g, tokens)
    requires Enough(g, turns, depth, |tokens|) && forall i :: 0 <= i < |tokens| ==> turns(i) <= more(i)
    ensures var p := Feed(g, ts, Idle, tokens, turns, depth);
      (p.stack == [] || !p.waiting) && p == Feed(g, ts, Idle, tokens, more, depth)
    decreases |tokens|
  {
    hide TablesOk, Acyclic, Sound, TurnBound, Turns;
    if tokens != [] {
      var n := |tokens| - 1;
      EveryTokenEnds(g, a, ts, tokens[..n], turns, more, depth);
      FeedSound(g, a, ts, tokens[..n], turns, depth);
      var p := Begin(Feed(g, ts, Idle, tokens[..n], turns, depth));
      LoopEnds(g, a, ts, p, tokens[n], depth, n, turns(n));
      EndStays(g, ts, p, tokens[n], depth, turns(n), more(n));
    }
  }

  // ----- the generated parser decides -----

  function Larger(turns: nat -> nat, n: nat): nat -> nat { (i: nat) => if turns(i) < n then n else turns(i) }

  lemma SameAccepted(g: Grammar, a: Automaton, ts: Tables, tokens: seq<nat>, turns: nat -> nat, more: nat -> nat,
                     depth: nat)
    requires g.Valid() && Acyclic(g) && TablesOk(g, a, ts) && Tokens(g, tokens)
    requires Enough(g, turns, depth, |tokens|) && forall i :: 0 <= i < |tokens| ==> turns(i) <= more(i)
    requires Accepts(g, ts, tokens, more, depth)
    ensures Accepts(g, ts, tokens, turns, depth)
    ensures Feed(g, ts, Idle, tokens, turns, depth) == Feed(g, ts, Idle, tokens, more, depth)
  {
    hide TablesOk, Acyclic, TurnBound, Feed;
    EveryTokenEnds(g, a, ts, tokens, turns, more, depth);
    forall i | 0 < i < |tokens| ensures Fed(g, ts, tokens, turns, depth, i) {
      EveryTokenEnds(g, a, ts, tokens[..i], turns, more, depth);
      assert Fed(g, ts, tokens, more, depth, i);
    }
  }

  /**
   The parser generated from a grammar without conflicts, in which no symbol derives itself, decides: it ends on every
   input, and within the depth of its stack it accepts the sentences, with their trees, and nothing else.
   */
  lemma GeneratedParserDecides(g: Grammar, u: Run, ar: Arrays, w: seq<nat>, turns: nat -> nat, depth: nat)
    requires RunOk(g, u) && FollowOk(g, u) && ConflictFree(g, u) && Acyclic(g)
    requires AllPacked(SizesOf(g, u), u.num, ar, Lists(g, u))
    requires (forall r :: 0 <= r < |g.rules| ==> |g.rules[r].rhs| < 256) && Tokens(g, w)
    requires Enough(g, turns, depth, |w| + 1)
    ensures var ts := TablesOf(g, SizesOf(g, u), ar); var p := Feed(g, ts, Idle, w + [0], turns, depth);
      (p.stack == [] || !p.waiting) &&
      (Accepts(g, ts, w + [0], turns, depth) ==> Sentence(g, p.result.tree, w)) &&
      forall t :: Sentence(g, t, w) && Room(t) < depth ==>
        Accepts(g, ts, w + [0], turns, depth) && p.result == Accepted(t)
  {
    hide RunOk, FollowOk, ConflictFree, AllPacked, Acyclic, TablesOk, Feed, Sentence, Fed, TurnBound, Room;
    RunShape(g, u);
    GeneratedTablesOk(g, u, ar);
    var ts, tokens, a := TablesOf(g, SizesOf(g, u), ar), w + [0], AutomatonFor(u);
    EveryTokenEnds(g, a, ts, tokens, turns, turns, depth);
    if Accepts(g, ts, tokens, turns, depth) {
      GeneratedParserSound(g, u, ar, tokens, turns, depth);
      assert tokens[..|w|] == w;
    }
    forall t | Sentence(g, t, w) && Room(t) < depth
      ensures Accepts(g, ts, tokens, turns, depth)
      ensures Feed(g, ts, Idle, tokens, turns, depth).result == Accepted(t)
    {
      YieldIs(g, t, w);
      GeneratedParserComplete(g, u, ar, t, Larger(turns, Nodes(t)), depth);
      SameAccepted(g, a, ts, tokens, turns, Larger(turns, Nodes(t)), depth);
    }
  }
}
