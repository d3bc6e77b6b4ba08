/** The actions of each state, and how conflicts between them are resolved. */
module LrActions {
  import opened Grammars
  import opened LrDriver
  import opened MergeSort
  import Lr0

  datatype Kind =
    | SHIFT | ACCEPT | REDUCE | ERROR | SSCONFLICT | SRCONFLICT | RRCONFLICT | SH_RESOLVED | RD_RESOLVED | NOT_USED

  /** An action on symbol `sp`; `arg` is the state to shift to or the rule to reduce by. */
  datatype Action = Action(sp: nat, kind: Kind, arg: nat, address: int)

  datatype Assoc = LEFT | RIGHT | NONE | UNK

  datatype Option = None | Some(value: nat)

  /** Precedences of symbols, -1 for none, and the precedence symbol of every rule. */
  datatype Precedence = Precedence(prec: nat -> int, assoc: nat -> Assoc, precsym: nat -> Option)

  predicate Live(a: Action) { a.kind == SHIFT || a.kind == REDUCE }

  // ----- the precedence of a rule -----

  function Members(x: Item): seq<nat> {
    match x
    case One(s) => [s]
    case Many(subs) => subs
  }

  /** No member of the first `i` elements has a precedence, nor of the next the first `j`. */
  ghost predicate NoneBefore(rhs: seq<Item>, prec: nat -> int, i: nat, j: nat) {
    i <= |rhs| && (forall h, k :: 0 <= h < i && 0 <= k < |Members(rhs[h])| ==> prec(Members(rhs[h])[k]) < 0) &&
    (i < |rhs| ==> forall k :: 0 <= k < j && k < |Members(rhs[i])| ==> prec(Members(rhs[i])[k]) < 0)
  }

  /** The symbol is the first with a precedence, in one of the first `n` elements. */
  ghost predicate FirstRanked(rhs: seq<Item>, prec: nat -> int, n: nat, s: nat) {
    n <= |rhs| && prec(s) >= 0 &&
    exists i, j :: 0 <= i < n && 0 <= j < |Members(rhs[i])| && Members(rhs[i])[j] == s && NoneBefore(rhs, prec, i, j)
  }

  /** `FindRulePrecedences` for one rule: the symbol it was given, else the first of its symbols that has one. */
  method FindRulePrecedence(rhs: seq<Item>, prec: nat -> int, given: Option) returns (s: Option)
    ensures given.Some? ==> s == given
    ensures given.None? ==>
      if s.None? then NoneBefore(rhs, prec, |rhs|, 0) else FirstRanked(rhs, prec, |rhs|, s.value)
  {
    s := given;
    var i := 0;
    while i < |rhs| && s.None?
      invariant i <= |rhs| && (given.Some? ==> s == given)
      invariant given.None? && s.None? ==> NoneBefore(rhs, prec, i, 0)
      invariant given.None? && s.Some? ==> FirstRanked(rhs, prec, i, s.value)
    {
      match rhs[i] {
        case Many(subs) =>
          var j := 0;
          while j < |subs| && prec(subs[j]) < 0
            invariant j <= |subs| && NoneBefore(rhs, prec, i, j)
          {
            j := j + 1;
          }
          if j < |subs| {
            s := Some(subs[j]);
            assert Members(rhs[i])[j] == subs[j];
          }
        case One(t) =>
          assert Members(rhs[i])[0] == t;
          if prec(t) >= 0 { s := Some(t); }
      }
      i := i + 1;
    }
  }

  // ----- the actions of a state -----

  ghost predicate ActionOk(g: Grammar, m: Automaton, q: nat, fws: Config -> set<nat>, a: Action)
    requires q < |m.configs| && |m.goto| == |m.configs|
  {
    match a.kind
    case SHIFT => exists x :: x in m.goto[q] && Covers(x, a.sp) && m.goto[q][x] == a.arg
    case REDUCE => Reduces(g, m, q, fws, a.arg, a.sp)
    case ACCEPT => q == 0 && a.sp == g.start
    case _ => false
  }

  /** The dot is at the end of rule `r`, and the token can follow. */
  ghost predicate Reduces(g: Grammar, m: Automaton, q: nat, fws: Config -> set<nat>, r: nat, t: nat)
    requires q < |m.configs|
  {
    r < |g.rules| && t < g.nterm && Config(r, |g.rules[r].rhs|) in m.configs[q] &&
    t in fws(Config(r, |g.rules[r].rhs|))
  }

  /**
   A list of a state's actions: all different, each justified; a nonterminal has no action but the shift its
   transition asks for, and the start symbol in the first state none but the acceptance.
   */
  ghost predicate ActionsOk(g: Grammar, m: Automaton, q: nat, fws: Config -> set<nat>, acts: seq<Action>)
    requires q < |m.configs| && |m.goto| == |m.configs|
  {
    Lr0.NoDup(acts) && (forall a :: a in acts ==> ActionOk(g, m, q, fws, a)) &&
    (forall a, b :: a in acts && b in acts && a.sp >= g.nterm && a.sp == b.sp ==> a == b) &&
    (forall x, t :: x in m.goto[q] && Covers(x, t) ==> Has(acts, t, SHIFT, m.goto[q][x])) &&
    (forall r, t :: Reduces(g, m, q, fws, r, t) ==> Has(acts, t, REDUCE, r)) &&
    (q == 0 ==> HasKind(acts, g.start, ACCEPT))
  }

  ghost predicate Has(acts: seq<Action>, sp: nat, kind: Kind, arg: nat) {
    exists a :: a in acts && a.sp == sp && a.kind == kind && a.arg == arg
  }

  ghost predicate HasKind(acts: seq<Action>, sp: nat, kind: Kind) {
    exists a :: a in acts && a.sp == sp && a.kind == kind
  }

  datatype Draft = Draft(sp: nat, kind: Kind, arg: nat)

  /** The shifts of `buildshifts`: one for each terminal of a multi-terminal. */
  function ItemDrafts(x: Item, target: nat): seq<Draft> {
    match x
    case One(s) => [Draft(s, SHIFT, target)]
    case Many(subs) => seq(|subs|, i requires 0 <= i < |subs| => Draft(subs[i], SHIFT, target))
  }

  function ShiftDrafts(shifts: seq<Lr0.Shift>): seq<Draft> {
    if shifts == [] then []
    else ShiftDrafts(shifts[..|shifts| - 1]) + ItemDrafts(shifts[|shifts| - 1].item, shifts[|shifts| - 1].target)
  }

  /** The reductions of `FindActions`: one for each token below `n` in the follow set. */
  function TokenDrafts(r: nat, follow: set<nat>, n: nat): seq<Draft> {
    if n == 0 then []
    else TokenDrafts(r, follow, n - 1) + if n - 1 in follow then [Draft(n - 1, REDUCE, r)] else []
  }

  function ReduceDrafts(g: Grammar, configs: seq<Config>, fws: Config -> set<nat>): seq<Draft> {
    if configs == [] then []
    else
      var c := configs[|configs| - 1];
      ReduceDrafts(g, configs[..|configs| - 1], fws) +
      if c.rule < |g.rules| && c.dot == |g.rules[c.rule].rhs| then TokenDrafts(c.rule, fws(c), g.nterm) else []
  }

  /** All actions of state `q`, in the order they are added. */
  function Drafts(g: Grammar, s: Lr0.State, q: nat, fws: Config -> set<nat>): seq<Draft> {
    ShiftDrafts(s.shifts) + ReduceDrafts(g, s.configs, fws) + if q == 0 then [Draft(g.start, ACCEPT, 0)] else []
  }

  /** Each action is a piece of memory of its own. */
  function Allocated(ds: seq<Draft>, address: nat -> int): (acts: seq<Action>)
    ensures |acts| == |ds|
    ensures forall i :: 0 <= i < |ds| ==> acts[i] == Action(ds[i].sp, ds[i].kind, ds[i].arg, address(i))
  {
    seq(|ds|, i requires 0 <= i < |ds| => Action(ds[i].sp, ds[i].kind, ds[i].arg, address(i)))
  }

  ghost predicate Shifted(shifts: seq<Lr0.Shift>, d: Draft) {
    exists k :: 0 <= k < |shifts| && Covers(shifts[k].item, d.sp) && shifts[k].target == d.arg
  }

  lemma {:induction false} ShiftDraftsAre(shifts: seq<Lr0.Shift>, d: Draft)
    ensures d in ShiftDrafts(shifts) <==> d.kind == SHIFT && Shifted(shifts, d)
    decreases |shifts|
  {
    hide Shifted, Covers, ItemDrafts;
    if shifts == [] {
      NoneShifted(d);
    } else {
      var n := |shifts| - 1;
      ShiftDraftsAre(shifts[..n], d);
      ItemDraftsAre(shifts[n].item, shifts[n].target, d);
      LastShifted(shifts, d);
    }
  }

  lemma NoneShifted(d: Draft)
    ensures !Shifted([], d)
  {}

  lemma LastShifted(shifts: seq<Lr0.Shift>, d: Draft)
    requires shifts != []
    ensures var n := |shifts| - 1;
      Shifted(shifts, d) <==>
        Shifted(shifts[..n], d) || (Covers(shifts[n].item, d.sp) && shifts[n].target == d.arg)
  {
    hide Covers;
    var n := |shifts| - 1;
    if Shifted(shifts[..n], d) {
      var k :| 0 <= k < n && Covers(shifts[..n][k].item, d.sp) && shifts[..n][k].target == d.arg;
      assert shifts[k] == shifts[..n][k];
    }
    if k :| 0 <= k < |shifts| && Covers(shifts[k].item, d.sp) && shifts[k].target == d.arg {
      if k < n { assert shifts[..n][k] == shifts[k]; }
    }
  }

  lemma ItemDraftsAre(x: Item, target: nat, d: Draft)
    ensures d in ItemDrafts(x, target) <==> d.kind == SHIFT && Covers(x, d.sp) && target == d.arg
  {
    if x.Many? && d.kind == SHIFT && d.sp in x.subs && target == d.arg {
      var i :| 0 <= i < |x.subs| && x.subs[i] == d.sp;
      assert ItemDrafts(x, target)[i] == d;
    }
  }

  lemma {:induction false} TokenDraftsAre(r: nat, follow: set<nat>, n: nat, d: Draft)
    ensures d in TokenDrafts(r, follow, n) <==> d.kind == REDUCE && d.arg == r && d.sp < n && d.sp in follow
  {
    if n > 0 { TokenDraftsAre(r, follow, n - 1, d); }
  }

  lemma {:induction false} ReduceDraftsAre(g: Grammar, configs: seq<Config>, fws: Config -> set<nat>, d: Draft)
    ensures d in ReduceDrafts(g, configs, fws) <==>
      d.kind == REDUCE && d.arg < |g.rules| && d.sp < g.nterm && Config(d.arg, |g.rules[d.arg].rhs|) in configs &&
      d.sp in fws(Config(d.arg, |g.rules[d.arg].rhs|))
    decreases |configs|
  {
    if configs != [] {
      var n := |configs| - 1;
      var c := configs[n];
      ReduceDraftsAre(g, configs[..n], fws, d);
      TokenDraftsAre(c.rule, fws(c), g.nterm, d);
      assert configs == configs[..n] + [c];
    }
  }

  lemma DraftsAre(g: Grammar, s: Lr0.State, q: nat, fws: Config -> set<nat>, d: Draft)
    ensures d in Drafts(g, s, q, fws) <==>
      (d.kind == SHIFT && Shifted(s.shifts, d)) ||
      (d.kind == REDUCE && d.arg < |g.rules| && d.sp < g.nterm && Config(d.arg, |g.rules[d.arg].rhs|) in s.configs &&
       d.sp in fws(Config(d.arg, |g.rules[d.arg].rhs|))) ||
      (q == 0 && d == Draft(g.start, ACCEPT, 0))
  {
    ShiftDraftsAre(s.shifts, d);
    ReduceDraftsAre(g, s.configs, fws, d);
  }

  lemma AllocatedAre(ds: seq<Draft>, address: nat -> int, d: Draft)
    ensures d in ds ==> exists a :: a in Allocated(ds, address) && a.sp == d.sp && a.kind == d.kind && a.arg == d.arg
  {
    if d in ds {
      var i :| 0 <= i < |ds| && ds[i] == d;
      assert Allocated(ds, address)[i].sp == d.sp;
    }
  }

  // ----- conflicts -----

  /** `resolve_conflict`: what becomes of the kinds of two actions on one symbol. */
  function Resolve(p: Precedence, x: Action, y: Action): (Kind, Kind) {
    if x.kind == SHIFT && y.kind == SHIFT then (SHIFT, SSCONFLICT)
    else if x.kind == SHIFT && y.kind == REDUCE then
      var r := p.precsym(y.arg);
      if r.None? || p.prec(x.sp) < 0 || p.prec(r.value) < 0 then (SHIFT, SRCONFLICT)
      else if p.prec(x.sp) > p.prec(r.value) then (SHIFT, RD_RESOLVED)
      else if p.prec(x.sp) < p.prec(r.value) then (SH_RESOLVED, REDUCE)
      else if p.assoc(x.sp) == RIGHT then (SHIFT, RD_RESOLVED)
      else if p.assoc(x.sp) == LEFT then (SH_RESOLVED, REDUCE)
      else (SHIFT, SRCONFLICT)
    else if x.kind == REDUCE && y.kind == REDUCE then
      var r, s := p.precsym(x.arg), p.precsym(y.arg);
      if r.None? || s.None? || p.prec(r.value) < 0 || p.prec(s.value) < 0 || p.prec(r.value) == p.prec(s.value) then
        (REDUCE, RRCONFLICT)
      else if p.prec(r.value) > p.prec(s.value) then (REDUCE, RD_RESOLVED)
      else (RD_RESOLVED, REDUCE)
    else (x.kind, y.kind)
  }

  /** One action is compared with those that follow it on the same symbol, from `j` on. */
  function Against(p: Precedence, acts: seq<Action>, i: nat, j: nat): (r: seq<Action>)
    requires i < j
    ensures |r| == |acts|
    decreases |acts| - j
  {
    if j >= |acts| || acts[j].sp != acts[i].sp then acts
    else
      var (a, b) := Resolve(p, acts[i], acts[j]);
      Against(p, acts[i := acts[i].(kind := a)][j := acts[j].(kind := b)], i, j + 1)
  }

  /** The pass over the list from `i` on. */
  function Resolved(p: Precedence, acts: seq<Action>, i: nat): (r: seq<Action>)
    ensures |r| == |acts|
    decreases |acts| - i
  {
    if i >= |acts| then acts else Resolved(p, Against(p, acts, i, i + 1), i + 1)
  }

  /** The list in place: the two nested loops of `FindActions`. */
  method ResolveAll(p: Precedence, acts: array<Action>)
    modifies acts
    ensures acts[..] == Resolved(p, old(acts[..]), 0)
  {
    for i := 0 to acts.Length
      invariant Resolved(p, acts[..], i) == Resolved(p, old(acts[..]), 0)
    {
      ghost var before := acts[..];
      var j := i + 1;
      while j < acts.Length && acts[j].sp == acts[i].sp
        invariant i < j <= acts.Length && Against(p, acts[..], i, j) == Against(p, before, i, i + 1)
      {
        ghost var now := acts[..];
        var (a, b) := Resolve(p, acts[i], acts[j]);
        acts[i] := acts[i].(kind := a);
        acts[j] := acts[j].(kind := b);
        assert acts[..] == now[i := now[i].(kind := a)][j := now[j].(kind := b)];
        j := j + 1;
      }
    }
  }

  /** Nothing but kinds changes, and those only from live to dead. */
  ghost predicate Weakened(acts: seq<Action>, acts': seq<Action>) {
    |acts| == |acts'| &&
    forall k :: 0 <= k < |acts| ==>
      acts'[k] == acts[k].(kind := acts'[k].kind) &&
      (acts'[k].kind == acts[k].kind || (Live(acts[k]) && !Live(acts'[k]) && acts'[k].kind !in {ACCEPT, ERROR}))
  }

  lemma {:induction false} AgainstWeakens(p: Precedence, acts: seq<Action>, i: nat, j: nat)
    requires i < j && i < |acts|
    ensures Weakened(acts, Against(p, acts, i, j))
    decreases |acts| - j
  {
    if j < |acts| && acts[j].sp == acts[i].sp {
      var (a, b) := Resolve(p, acts[i], acts[j]);
      AgainstWeakens(p, acts[i := acts[i].(kind := a)][j := acts[j].(kind := b)], i, j + 1);
    }
  }

  lemma {:induction false} ResolvedWeakens(p: Precedence, acts: seq<Action>, i: nat)
    ensures Weakened(acts, Resolved(p, acts, i))
    decreases |acts| - i
  {
    if i < |acts| {
      AgainstWeakens(p, acts, i, i + 1);
      ResolvedWeakens(p, Against(p, acts, i, i + 1), i + 1);
    }
  }

  /** As sorted: actions on one symbol stand together, shifts before reductions. */
  ghost predicate Grouped(acts: seq<Action>) {
    (forall i, j :: 0 <= i < j < |acts| ==> acts[i].sp <= acts[j].sp) &&
    forall i, j ::
      0 <= i < j < |acts| && acts[i].sp == acts[j].sp ==> !(acts[i].kind == REDUCE && acts[j].kind == SHIFT)
  }

  lemma GroupedStays(acts: seq<Action>, acts': seq<Action>)
    requires Grouped(acts) && Weakened(acts, acts')
    ensures Grouped(acts')
  {
    forall i, j | 0 <= i < j < |acts'|
      ensures acts'[i].sp <= acts'[j].sp
      ensures acts'[i].sp == acts'[j].sp ==> !(acts'[i].kind == REDUCE && acts'[j].kind == SHIFT)
    {
      assert acts'[i] == acts[i].(kind := acts'[i].kind) && acts'[j] == acts[j].(kind := acts'[j].kind);
    }
  }

  /** Action `k` is still a shift or reduction on `s`. */
  predicate On(acts: seq<Action>, s: nat, k: int) { 0 <= k < |acts| && acts[k].sp == s && Live(acts[k]) }

  // ----- which action is left -----

  /** A shift has the precedence of its token, a reduction that of its rule's precedence symbol. */
  predicate HasRank(p: Precedence, a: Action) {
    if a.kind == SHIFT then p.prec(a.sp) >= 0 else p.precsym(a.arg).Some? && p.prec(p.precsym(a.arg).value) >= 0
  }

  function Rank(p: Precedence, a: Action): int
    requires HasRank(p, a)
  {
    if a.kind == SHIFT then p.prec(a.sp) else p.prec(p.precsym(a.arg).value)
  }

  /**
   A reduction beats an action before it on the same symbol when both have a precedence and its own is higher, or the
   same as that of a shift on a left-associative token. Without precedences nothing beats what comes first.
   */
  predicate Beats(p: Precedence, y: Action, x: Action) {
    y.kind == REDUCE && HasRank(p, y) && HasRank(p, x) &&
    (Rank(p, y) > Rank(p, x) || (Rank(p, y) == Rank(p, x) && x.kind == SHIFT && p.assoc(x.sp) == LEFT))
  }

  /** What is left of action `c` and the actions on `s` from `j` on, each challenging in turn the one still left. */
  function Left(p: Precedence, acts: seq<Action>, s: nat, c: nat, j: nat): (k: nat)
    requires On(acts, s, c)
    ensures On(acts, s, k) && (k == c || j <= k)
    decreases |acts| - j
  {
    if j >= |acts| then c
    else if On(acts, s, j) && Beats(p, acts[j], acts[c]) then Left(p, acts, s, j, j + 1)
    else Left(p, acts, s, c, j + 1)
  }

  /** The first action on `s`. */
  ghost predicate FirstOn(acts: seq<Action>, s: nat, f: int) { On(acts, s, f) && forall k :: k < f ==> !On(acts, s, k) }

  /** Only `k` is left on `s`. */
  ghost predicate OnlyOn(acts: seq<Action>, s: nat, k: int) { On(acts, s, k) && forall l :: l != k ==> !On(acts, s, l) }

  /** The same actions on `s` from `j` on. */
  ghost predicate SameFrom(acts: seq<Action>, acts': seq<Action>, s: nat, j: int) {
    |acts| == |acts'| && forall l :: 0 <= l < |acts| && j <= l ==>
      acts[l] == acts'[l] || (acts[l].sp != s && acts'[l].sp != s)
  }

  lemma {:induction false} LeftSame(p: Precedence, acts: seq<Action>, acts': seq<Action>, s: nat, c: nat, j: nat)
    requires On(acts, s, c) && On(acts', s, c) && acts[c] == acts'[c] && SameFrom(acts, acts', s, j)
    ensures Left(p, acts, s, c, j) == Left(p, acts', s, c, j)
    decreases |acts| - j
  {
    hide Beats;
    if j < |acts| {
      assert acts[j] == acts'[j] || (acts[j].sp != s && acts'[j].sp != s);
      if On(acts, s, j) && Beats(p, acts[j], acts[c]) {
        LeftSame(p, acts, acts', s, j, j + 1);
      } else {
        LeftSame(p, acts, acts', s, c, j + 1);
      }
    }
  }

  lemma {:induction false} LeftAlone(p: Precedence, acts: seq<Action>, s: nat, c: nat, j: nat)
    requires On(acts, s, c) && forall l :: j <= l ==> !On(acts, s, l)
    ensures Left(p, acts, s, c, j) == c
    decreases |acts| - j
  {
    if j < |acts| { LeftAlone(p, acts, s, c, j + 1); }
  }

  /** A dead action changes nothing. */
  lemma {:induction false} DeadRound(p: Precedence, acts: seq<Action>, i: nat, j: nat)
    requires i < j && i < |acts| && !Live(acts[i])
    ensures Against(p, acts, i, j) == acts
    decreases |acts| - j
  {
    if j < |acts| && acts[j].sp == acts[i].sp {
      assert acts[i := acts[i].(kind := acts[i].kind)][j := acts[j].(kind := acts[j].kind)] == acts;
      DeadRound(p, acts, i, j + 1);
    }
  }

  lemma {:induction false} OthersUntouched(p: Precedence, acts: seq<Action>, i: nat, j: nat, k: nat)
    requires i < j && i < |acts| && k < |acts| && acts[k].sp != acts[i].sp
    ensures Against(p, acts, i, j)[k] == acts[k]
    decreases |acts| - j
  {
    if j < |acts| && acts[j].sp == acts[i].sp {
      var (a, b) := Resolve(p, acts[i], acts[j]);
      OthersUntouched(p, acts[i := acts[i].(kind := a)][j := acts[j].(kind := b)], i, j + 1, k);
    }
  }

  /** Of two live actions, a shift not behind a reduction, the second is left if it beats the first, else the first. */
  lemma OneDuel(p: Precedence, x: Action, y: Action)
    requires x.sp == y.sp && Live(x) && !(x.kind == REDUCE && y.kind == SHIFT)
    ensures var (a, b) := Resolve(p, x, y);
      if !Live(y) then a == x.kind && b == y.kind
      else if Beats(p, y, x) then !Live(x.(kind := a)) && b == y.kind
      else a == x.kind && !Live(y.(kind := b))
  {}

  /** The list after one comparison. */
  function Compared(p: Precedence, acts: seq<Action>, i: nat, j: nat): (next: seq<Action>)
    requires i < j < |acts|
    ensures |next| == |acts|
  {
    var (a, b) := Resolve(p, acts[i], acts[j]);
    acts[i := acts[i].(kind := a)][j := acts[j].(kind := b)]
  }

  lemma DuelLeaves(p: Precedence, acts: seq<Action>, s: nat, f: nat, j: nat)
    requires Grouped(acts) && On(acts, s, f) && f < j < |acts| && acts[j].sp == s
    requires forall l :: l < j && l != f ==> !On(acts, s, l)
    ensures var next := Compared(p, acts, f, j);
      if On(acts, s, j) && Beats(p, acts[j], acts[f]) then
        !Live(next[f]) && FirstOn(next, s, j) && SameFrom(acts, next, s, j)
      else
        next[f] == acts[f] && SameFrom(acts, next, s, j + 1) && forall l :: l <= j && l != f ==> !On(next, s, l)
  {
    hide Resolve, Beats;
    assert !(acts[f].kind == REDUCE && acts[j].kind == SHIFT);
    OneDuel(p, acts[f], acts[j]);
    var next := Compared(p, acts, f, j);
    forall l | l != f && l != j ensures On(next, s, l) <==> On(acts, s, l) {}
  }

  /** The round of action `f`: it is left alone, or a later one beat it and those from there on are as they were. */
  lemma {:induction false} LiveRound(p: Precedence, acts: seq<Action>, s: nat, f: nat, j: nat) returns (g: nat)
    requires Grouped(acts) && On(acts, s, f) && f < j && forall l :: l < j && l != f ==> !On(acts, s, l)
    ensures var next := Against(p, acts, f, j);
      if g == f then OnlyOn(next, s, f) && Left(p, acts, s, f, j) == f
      else j <= g && FirstOn(next, s, g) && SameFrom(acts, next, s, g) && On(acts, s, g) &&
           Left(p, acts, s, f, j) == Left(p, acts, s, g, g + 1)
    decreases |acts| - j
  {
    hide Resolve, Beats, Compared, Grouped, SameFrom;
    g := f;
    if j >= |acts| || acts[j].sp != s {
      NoneBehind(acts, s, f, j);
      LeftAlone(p, acts, s, f, j);
    } else {
      var next := Compared(p, acts, f, j);
      CompareWeakens(p, acts, f, j);
      GroupedStays(acts, next);
      DuelLeaves(p, acts, s, f, j);
      AgainstStep(p, acts, f, j);
      if On(acts, s, j) && Beats(p, acts[j], acts[f]) {
        DeadRound(p, next, f, j + 1);
        g := j;
      } else {
        g := LiveRound(p, next, s, f, j + 1);
        LeftSame(p, acts, next, s, f, j + 1);
        if g > f { SameOn(p, acts, next, Against(p, acts, f, j), s, j + 1, g); }
      }
    }
  }

  lemma AgainstStep(p: Precedence, acts: seq<Action>, i: nat, j: nat)
    requires i < j < |acts| && acts[j].sp == acts[i].sp
    ensures Against(p, acts, i, j) == Against(p, Compared(p, acts, i, j), i, j + 1)
  {}

  lemma CompareWeakens(p: Precedence, acts: seq<Action>, i: nat, j: nat)
    requires i < j < |acts|
    ensures Weakened(acts, Compared(p, acts, i, j))
  {}

  lemma NoneBehind(acts: seq<Action>, s: nat, f: nat, j: nat)
    requires Grouped(acts) && On(acts, s, f) && f < j && (j >= |acts| || acts[j].sp != s)
    ensures forall l :: j <= l ==> !On(acts, s, l)
  {
    if j < |acts| { assert forall l :: j <= l < |acts| ==> acts[l].sp > s; }
  }

  lemma SameOn(p: Precedence, acts: seq<Action>, next: seq<Action>, last: seq<Action>, s: nat, j: nat, g: nat)
    requires SameFrom(acts, next, s, j) && SameFrom(next, last, s, g) && j <= g && On(next, s, g)
    ensures SameFrom(acts, last, s, g) && On(acts, s, g)
    ensures Left(p, acts, s, g, g + 1) == Left(p, next, s, g, g + 1)
  {
    LeftSame(p, acts, next, s, g, g + 1);
  }

  /** What is alone stays alone. */
  lemma {:induction false} StaysAlone(p: Precedence, acts: seq<Action>, s: nat, i: nat, k: nat)
    requires OnlyOn(acts, s, k) && k < i
    ensures OnlyOn(Resolved(p, acts, i), s, k)
    decreases |acts| - i
  {
    hide Against;
    if i < |acts| {
      var next := Against(p, acts, i, i + 1);
      OtherRound(p, acts, s, i);
      StaysAlone(p, next, s, i + 1, k);
    }
  }

  /** A round of a dead action, or of one on another symbol, leaves the actions on `s` as they are. */
  lemma OtherRound(p: Precedence, acts: seq<Action>, s: nat, i: nat)
    requires i < |acts| && !On(acts, s, i)
    ensures var next := Against(p, acts, i, i + 1);
      SameFrom(acts, next, s, 0) && forall l :: On(next, s, l) <==> On(acts, s, l)
  {
    hide Against;
    var next := Against(p, acts, i, i + 1);
    if acts[i].sp == s {
      DeadRound(p, acts, i, i + 1);
    } else {
      AgainstWeakens(p, acts, i, i + 1);
      forall l | 0 <= l < |acts| ensures acts[l] == next[l] || (acts[l].sp != s && next[l].sp != s) {
        assert next[l] == acts[l].(kind := next[l].kind);
        if acts[l].sp == s { OthersUntouched(p, acts, i, i + 1, l); }
      }
    }
  }

  /** The rounds from `i` on leave what is left of the first action on `s` and its challengers. */
  lemma {:induction false} RoundsLeave(p: Precedence, acts: seq<Action>, s: nat, i: nat, f: nat)
    requires Grouped(acts) && FirstOn(acts, s, f) && i <= f
    ensures OnlyOn(Resolved(p, acts, i), s, Left(p, acts, s, f, f + 1))
    decreases |acts| - i
  {
    hide Against, Grouped, Left;
    var next := Against(p, acts, i, i + 1);
    AgainstWeakens(p, acts, i, i + 1);
    GroupedStays(acts, next);
    if i < f {
      OtherRound(p, acts, s, i);
      RoundsLeave(p, next, s, i + 1, f);
      LeftSame(p, acts, next, s, f, f + 1);
    } else {
      var g := LiveRound(p, acts, s, f, f + 1);
      if g == f {
        StaysAlone(p, next, s, f + 1, f);
      } else {
        RoundsLeave(p, next, s, f + 1, g);
        LeftSame(p, acts, next, s, g, g + 1);
      }
    }
  }

  lemma {:induction false} SomeFirst(acts: seq<Action>, s: nat, k: nat) returns (f: nat)
    requires On(acts, s, k)
    ensures FirstOn(acts, s, f) && f <= k
    decreases k
  {
    if l :| 0 <= l < k && On(acts, s, l) { f := SomeFirst(acts, s, l); } else { f := k; }
  }

  /**
   Of the shifts and reductions on one symbol, however many there are and whatever their precedences, exactly one is
   left: the first, unless a later one beats it, then that one, unless a later one beats that, and so on.
   */
  lemma ConflictsResolved(p: Precedence, acts: seq<Action>, s: nat) returns (f: nat)
    requires Grouped(acts) && exists k :: On(acts, s, k)
    ensures FirstOn(acts, s, f)
    ensures forall k :: On(Resolved(p, acts, 0), s, k) <==> k == Left(p, acts, s, f, f + 1)
  {
    var k :| On(acts, s, k);
    f := SomeFirst(acts, s, k);
    RoundsLeave(p, acts, s, 0, f);
  }

  /** The action that comes first is left if and only if no other beats it. */
  lemma {:induction false} FirstLeft(p: Precedence, acts: seq<Action>, s: nat, f: nat, j: nat)
    requires On(acts, s, f) && f < j
    ensures Left(p, acts, s, f, j) == f <==> forall l :: j <= l && On(acts, s, l) ==> !Beats(p, acts[l], acts[f])
    decreases |acts| - j
  {
    hide Beats;
    if j < |acts| && !(On(acts, s, j) && Beats(p, acts[j], acts[f])) { FirstLeft(p, acts, s, f, j + 1); }
  }

  /** Where all on `s` have precedences: reductions that do not stand up to `c`, the reduction left so far. */
  ghost predicate Highest(p: Precedence, acts: seq<Action>, s: nat, c: nat, n: int)
    requires On(acts, s, c)
  {
    forall l :: l < n && On(acts, s, l) && acts[l].kind == REDUCE ==>
      HasRank(p, acts[l]) && HasRank(p, acts[c]) &&
      (Rank(p, acts[l]) < Rank(p, acts[c]) || (Rank(p, acts[l]) == Rank(p, acts[c]) && c <= l))
  }

  /** No reduction before `n` beats `c`, a shift. */
  ghost predicate Unbeaten(p: Precedence, acts: seq<Action>, s: nat, c: nat, n: int)
    requires On(acts, s, c)
  {
    forall l :: l < n && On(acts, s, l) ==> !Beats(p, acts[l], acts[c])
  }

  ghost predicate AllRanked(p: Precedence, acts: seq<Action>, s: nat) {
    forall l :: On(acts, s, l) ==> HasRank(p, acts[l])
  }

  /** What stands before `j`, with what is left of it. */
  ghost predicate Stands(p: Precedence, acts: seq<Action>, s: nat, c: nat, j: int)
    requires On(acts, s, c)
  {
    if acts[c].kind == SHIFT then Unbeaten(p, acts, s, c, j) else Highest(p, acts, s, c, j)
  }

  lemma StandsNext(p: Precedence, acts: seq<Action>, s: nat, c: nat, j: nat)
    requires Grouped(acts) && AllRanked(p, acts, s) && On(acts, s, c) && c < j < |acts| && Stands(p, acts, s, c, j)
    ensures if On(acts, s, j) && Beats(p, acts[j], acts[c]) then Stands(p, acts, s, j, j + 1)
            else Stands(p, acts, s, c, j + 1)
  {
    if On(acts, s, j) { assert !(acts[c].kind == REDUCE && acts[j].kind == SHIFT); }
  }

  /** If all have precedences, a reduction that is left has the highest of the reductions, the first of these. */
  lemma {:induction false} HighestLeft(p: Precedence, acts: seq<Action>, s: nat, c: nat, j: nat)
    requires Grouped(acts) && AllRanked(p, acts, s) && On(acts, s, c) && c < j && Stands(p, acts, s, c, j)
    ensures Stands(p, acts, s, Left(p, acts, s, c, j), |acts|)
    decreases |acts| - j
  {
    hide Stands, Beats, Grouped, AllRanked;
    if j < |acts| {
      StandsNext(p, acts, s, c, j);
      if On(acts, s, j) && Beats(p, acts[j], acts[c]) {
        HighestLeft(p, acts, s, j, j + 1);
      } else {
        HighestLeft(p, acts, s, c, j + 1);
      }
    } else {
      StandsToEnd(p, acts, s, c, j);
    }
  }

  lemma StandsToEnd(p: Precedence, acts: seq<Action>, s: nat, c: nat, j: nat)
    requires On(acts, s, c) && Stands(p, acts, s, c, j) && j >= |acts|
    ensures Stands(p, acts, s, c, |acts|)
  {}

  // ----- the actions are those of the automaton -----

  lemma NonterminalShift(g: Grammar, states: seq<Lr0.State>, q: nat, k: nat, l: nat, sp: nat)
    requires g.Valid() && Lr0.Built(g, states) && q < |states| && sp >= g.nterm
    requires k < |states[q].shifts| && l < |states[q].shifts|
    requires Covers(states[q].shifts[k].item, sp) && Covers(states[q].shifts[l].item, sp)
    ensures k == l && sp != g.start
  {
    var s := states[q].shifts;
    assert Lr0.Shape(g, states, q) && Lr0.ShiftOk(g, states, q, k) && Lr0.ShiftOk(g, states, q, l);
    var c :| c in states[q].configs && Before(g, c, s[k].item);
    var d :| d in states[q].configs && Before(g, d, s[l].item);
    assert g.ItemOk(s[k].item) && g.ItemOk(s[l].item);
    assert s[k].item == One(sp) && s[l].item == One(sp);
  }

  /** The actions added to a state are all those its transitions, complete configurations and follow sets ask for. */
  lemma ActionsAreOk(g: Grammar, states: seq<Lr0.State>, q: nat, fws: Config -> set<nat>, address: nat -> int)
    requires g.Valid() && Lr0.Built(g, states) && q < |states|
    requires forall i, j :: i != j ==> address(i) != address(j)
    ensures ActionsOk(g, Lr0.AutomatonOf(states), q, fws, Allocated(Drafts(g, states[q], q, fws), address))
  {
    hide Drafts, ReduceDrafts, ShiftDrafts;
    var m, s, ds := Lr0.AutomatonOf(states), states[q], Drafts(g, states[q], q, fws);
    var acts := Allocated(ds, address);
    assert Lr0.Shape(g, states, q);
    Lr0.GotoIs(s.shifts);
    forall a | a in acts ensures ActionOk(g, m, q, fws, a) {
      DraftOf(g, states, q, fws, address, a);
    }
    forall a, b | a in acts && b in acts && a.sp >= g.nterm && a.sp == b.sp ensures a == b {
      OneOfNonterminal(g, states, q, fws, address, a, b);
    }
    forall x, t | x in m.goto[q] && Covers(x, t) ensures Has(acts, t, SHIFT, m.goto[q][x]) {
      var k :| 0 <= k < |s.shifts| && s.shifts[k].item == x;
      DraftsAre(g, s, q, fws, Draft(t, SHIFT, s.shifts[k].target));
      AllocatedAre(ds, address, Draft(t, SHIFT, s.shifts[k].target));
    }
    forall r, t | Reduces(g, m, q, fws, r, t) ensures Has(acts, t, REDUCE, r) {
      DraftsAre(g, s, q, fws, Draft(t, REDUCE, r));
      AllocatedAre(ds, address, Draft(t, REDUCE, r));
    }
    if q == 0 {
      DraftsAre(g, s, q, fws, Draft(g.start, ACCEPT, 0));
      AllocatedAre(ds, address, Draft(g.start, ACCEPT, 0));
    }
  }

  lemma DraftOf(g: Grammar, states: seq<Lr0.State>, q: nat, fws: Config -> set<nat>, address: nat -> int, a: Action)
    requires g.Valid() && Lr0.Built(g, states) && q < |states|
    requires a in Allocated(Drafts(g, states[q], q, fws), address)
    ensures ActionOk(g, Lr0.AutomatonOf(states), q, fws, a)
  {
    hide Drafts;
    var m, s, ds := Lr0.AutomatonOf(states), states[q], Drafts(g, states[q], q, fws);
    var i :| 0 <= i < |ds| && Allocated(ds, address)[i] == a;
    DraftsAre(g, s, q, fws, ds[i]);
    assert ds[i] in ds;
    assert Lr0.Shape(g, states, q);
    Lr0.GotoIs(s.shifts);
    if a.kind == SHIFT {
      var k :| 0 <= k < |s.shifts| && Covers(s.shifts[k].item, a.sp) && s.shifts[k].target == a.arg;
      assert s.shifts[k].item in m.goto[q];
    }
  }

  /** A nonterminal covered by one shift only, and that a single one, is drafted once. */
  lemma {:induction false} DraftedOnce(shifts: seq<Lr0.Shift>, sp: nat, i: nat, j: nat)
    requires i <= j < |ShiftDrafts(shifts)| && ShiftDrafts(shifts)[i].sp == sp && ShiftDrafts(shifts)[j].sp == sp
    requires forall k, l ::
      0 <= k < |shifts| && 0 <= l < |shifts| && Covers(shifts[k].item, sp) && Covers(shifts[l].item, sp) ==> k == l
    requires forall k :: 0 <= k < |shifts| && Covers(shifts[k].item, sp) ==> shifts[k].item.One?
    ensures i == j
    decreases |shifts|
  {
    var n := |shifts| - 1;
    var ds, es := ShiftDrafts(shifts[..n]), ItemDrafts(shifts[n].item, shifts[n].target);
    if j < |ds| {
      forall k, l | 0 <= k < n && 0 <= l < n && Covers(shifts[..n][k].item, sp) && Covers(shifts[..n][l].item, sp)
        ensures k == l
      {
        assert Covers(shifts[k].item, sp) && Covers(shifts[l].item, sp);
      }
      DraftedOnce(shifts[..n], sp, i, j);
    } else {
      assert es[j - |ds|] in es;
      ItemDraftsAre(shifts[n].item, shifts[n].target, es[j - |ds|]);
      if i < |ds| {
        assert ds[i] in ds;
        forall k | 0 <= k < n ensures !Covers(shifts[..n][k].item, sp) { assert shifts[..n][k] == shifts[k]; }
        ShiftDraftsAre(shifts[..n], ds[i]);
      }
    }
  }

  lemma OneOfNonterminal(g: Grammar, states: seq<Lr0.State>, q: nat, fws: Config -> set<nat>, address: nat -> int,
                         a: Action, b: Action)
    requires g.Valid() && Lr0.Built(g, states) && q < |states| && a.sp >= g.nterm && a.sp == b.sp
    requires a in Allocated(Drafts(g, states[q], q, fws), address) &&
             b in Allocated(Drafts(g, states[q], q, fws), address)
    ensures a == b
  {
    hide ShiftDrafts, ReduceDrafts;
    var s, ds := states[q].shifts, Drafts(g, states[q], q, fws);
    var i :| 0 <= i < |ds| && Allocated(ds, address)[i] == a;
    var j :| 0 <= j < |ds| && Allocated(ds, address)[j] == b;
    PlaceOfDraft(g, states, q, fws, i);
    PlaceOfDraft(g, states, q, fws, j);
    var n := |ShiftDrafts(s)|;
    if i < n && j < n {
      forall k, l | 0 <= k < |s| && 0 <= l < |s| && Covers(s[k].item, a.sp) && Covers(s[l].item, a.sp)
        ensures k == l && s[k].item.One?
      {
        NonterminalShift(g, states, q, k, l, a.sp);
        SingleItem(g, states, q, k, a.sp);
      }
      DraftedOnce(s, a.sp, if i <= j then i else j, if i <= j then j else i);
    }
  }

  lemma SingleItem(g: Grammar, states: seq<Lr0.State>, q: nat, k: nat, sp: nat)
    requires g.Valid() && Lr0.Built(g, states) && q < |states| && sp >= g.nterm
    requires k < |states[q].shifts| && Covers(states[q].shifts[k].item, sp)
    ensures states[q].shifts[k].item == One(sp)
  {
    assert Lr0.Shape(g, states, q) && Lr0.ShiftOk(g, states, q, k);
    var c :| c in states[q].configs && Before(g, c, states[q].shifts[k].item);
    assert g.ItemOk(states[q].shifts[k].item);
  }

  /** A draft on a nonterminal is a shift, or the acceptance at the very end. */
  lemma PlaceOfDraft(g: Grammar, states: seq<Lr0.State>, q: nat, fws: Config -> set<nat>, i: nat)
    requires g.Valid() && Lr0.Built(g, states) && q < |states|
    requires i < |Drafts(g, states[q], q, fws)| && Drafts(g, states[q], q, fws)[i].sp >= g.nterm
    ensures var ds, n := Drafts(g, states[q], q, fws), |ShiftDrafts(states[q].shifts)|;
      if i < n then ds[i].sp != g.start else i == |ds| - 1 && q == 0 && ds[i].sp == g.start
  {
    hide ShiftDrafts, ReduceDrafts;
    var s, ds := states[q], Drafts(g, states[q], q, fws);
    var n, rs := |ShiftDrafts(s.shifts)|, ReduceDrafts(g, s.configs, fws);
    if i < n {
      assert ShiftDrafts(s.shifts)[i] in ShiftDrafts(s.shifts);
      ShiftDraftsAre(s.shifts, ds[i]);
      var k :| 0 <= k < |s.shifts| && Covers(s.shifts[k].item, ds[i].sp) && s.shifts[k].target == ds[i].arg;
      NonterminalShift(g, states, q, k, k, ds[i].sp);
    } else if i < n + |rs| {
      assert rs[i - n] in rs && ds[i] == rs[i - n];
      ReduceDraftsAre(g, s.configs, fws, ds[i]);
    }
  }
}
