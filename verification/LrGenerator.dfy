/**
 The whole generator: from the LR(0) states to the written tables. The parser it makes is sound, and makes
 the same moves as one that reads the resolved action lists directly.
 */
module LrGenerator {
  import opened Grammars
  import opened LrDriver
  import opened LrActions
  import opened LrCompress
  import opened ActionTable
  import opened MergeSort
  import opened LrTables
  import Lr0

  /**
   What the generator works on besides the grammar: the states, each state's follow sets, precedences, where
   actions lie in memory, the default of each state (rule and frequency), and the final order of the states.
   */
  datatype Run = Run(states: seq<Lr0.State>, fws: nat -> Config -> set<nat>, prec: Precedence,
                     address: nat -> nat -> int, best: nat -> (nat, nat), order: seq<nat>, num: nat -> nat)

  /** The actions added to state `q`. */
  function RawOf(g: Grammar, u: Run, q: nat): seq<Action>
    requires q < |u.states|
  {
    Allocated(Drafts(g, u.states[q], q, u.fws(q)), u.address(q))
  }

  /** The resolved actions of state `q`. */
  function ResolvedOf(g: Grammar, u: Run, q: nat): seq<Action>
    requires q < |u.states|
  {
    Finished(u.prec, RawOf(g, u, q))
  }

  function PackedOf(g: Grammar, u: Run, q: nat): seq<Action>
    requires q < |u.states|
  {
    Compressed(ResolvedOf(g, u, q), u.best(q).0, u.best(q).1, g.nsym)
  }

  function IsStart(g: Grammar, r: nat): bool { r < |g.rules| && g.rules[r].lhs == g.start }

  function StartRule(g: Grammar): nat -> bool { (r: nat) => IsStart(g, r) }

  /** `ResortStates`: the states in another order, the first staying first; `num` is their place in it. */
  ghost predicate Reordered(u: Run) {
    |u.order| == |u.states| && (u.states != [] ==> u.order[0] == 0) &&
    (forall i :: 0 <= i < |u.order| ==> u.order[i] < |u.states| && u.num(u.order[i]) == i) &&
    forall q :: 0 <= q < |u.states| ==> u.num(q) < |u.order| && u.order[u.num(q)] == q
  }

  ghost predicate RunOk(g: Grammar, u: Run) {
    g.Valid() && Lr0.Built(g, u.states) && Reordered(u) &&
    (forall q, i, j :: i != j ==> u.address(q)(i) != u.address(q)(j)) &&
    forall q :: 0 <= q < |u.states| ==> ListOk(g, u, q)
  }

  /** A state's list is short enough to sort, and its default is what `CompressTables` finds. */
  ghost predicate ListOk(g: Grammar, u: Run, q: nat)
    requires q < |u.states|
  {
    |RawOf(g, u, q)| < Pow2(LISTSIZE) &&
    MostFrequent(ResolvedOf(g, u, q), StartRule(g), u.best(q).0, u.best(q).1)
  }

  function SizesOf(g: Grammar, u: Run): Sizes { Sizes(|u.states|, |g.rules|, g.nterm, g.nsym) }

  /** The lists that are packed, in the final order. */
  function Lists(g: Grammar, u: Run): (r: seq<seq<Action>>)
    requires |u.order| == |u.states| && forall i :: 0 <= i < |u.order| ==> u.order[i] < |u.states|
    ensures |r| == |u.order| && forall i :: 0 <= i < |r| ==> r[i] == PackedOf(g, u, u.order[i])
  {
    seq(|u.order|, i requires 0 <= i < |u.order| => PackedOf(g, u, u.order[i]))
  }

  // ----- renumbering -----

  function Renumbered(m: Automaton, order: seq<nat>, num: nat -> nat): (a: Automaton)
    requires |m.goto| == |m.configs| == |order| && forall i :: 0 <= i < |order| ==> order[i] < |m.configs|
    ensures |a.configs| == |a.goto| == |order|
  {
    Automaton(seq(|order|, i requires 0 <= i < |order| => m.configs[order[i]]),
              seq(|order|, i requires 0 <= i < |order| =>
                map x | x in m.goto[order[i]] :: num(m.goto[order[i]][x])))
  }

  function AutomatonFor(u: Run): (a: Automaton)
    requires |u.order| == |u.states| && forall i :: 0 <= i < |u.order| ==> u.order[i] < |u.states|
    ensures |a.configs| == |a.goto| == |u.order|
  {
    Renumbered(Lr0.AutomatonOf(u.states), u.order, u.num)
  }

  lemma RenumberedAt(u: Run, i: nat)
    requires Reordered(u) && i < |u.order|
    ensures var m, a := Lr0.AutomatonOf(u.states), AutomatonFor(u);
      a.configs[i] == m.configs[u.order[i]] && a.goto[i].Keys == m.goto[u.order[i]].Keys &&
      (forall x :: x in a.goto[i] ==> a.goto[i][x] == u.num(m.goto[u.order[i]][x])) && u.num(0) == 0
  {}

  lemma RenumberedGoto(g: Grammar, u: Run, i: nat, x: Item)
    requires Reordered(u) && AutomatonOk(g, Lr0.AutomatonOf(u.states)) && i < |u.order|
    requires x in AutomatonFor(u).goto[i]
    ensures GotoOk(g, AutomatonFor(u), i, x)
  {
    hide Lr0.AutomatonOf, AutomatonFor, Before, Reordered, AutomatonOk, GotoOk;
    OrderFits(u);
    var m, a, q := Lr0.AutomatonOf(u.states), AutomatonFor(u), u.order[i];
    RenumberedAt(u, i);
    TransitionOk(g, m, q, x);
    var t := m.goto[q][x];
    PlaceOf(u, t);
    RenumberedAt(u, u.num(t));
    SameTransition(g, m, a, q, i, x);
  }

  lemma TransitionOk(g: Grammar, m: Automaton, q: nat, x: Item)
    requires AutomatonOk(g, m) && q < |m.configs| && x in m.goto[q]
    ensures |m.goto| == |m.configs| && GotoOk(g, m, q, x)
  {
    assert StateOk(g, m, q);
  }

  /** A transition between the same sets of configurations, but for the numbers of the states. */
  lemma SameTransition(g: Grammar, m: Automaton, a: Automaton, q: nat, i: nat, x: Item)
    requires q < |m.configs| == |m.goto| && i < |a.configs| == |a.goto| && x in m.goto[q] && x in a.goto[i]
    requires a.configs[i] == m.configs[q] && GotoOk(g, m, q, x) && 0 < a.goto[i][x] < |a.configs|
    requires a.configs[a.goto[i][x]] == m.configs[m.goto[q][x]]
    ensures GotoOk(g, a, i, x)
  {
    hide Before;
  }

  lemma OrderFits(u: Run)
    requires Reordered(u)
    ensures |u.order| == |u.states| && forall i :: 0 <= i < |u.order| ==> u.order[i] < |u.states|
  {}

  lemma PlaceOf(u: Run, q: nat)
    requires Reordered(u) && q < |u.states|
    ensures u.num(q) < |u.order| && u.order[u.num(q)] == q && (q > 0 ==> u.num(q) > 0)
  {
    if u.num(q) == 0 { assert u.order[0] == q; }
  }

  lemma RenumberedState(g: Grammar, u: Run, i: nat)
    requires Reordered(u) && AutomatonOk(g, Lr0.AutomatonOf(u.states)) && i < |u.order|
    ensures StateOk(g, AutomatonFor(u), i)
  {
    hide GotoOk, Before, Waited;
    var m, a, q := Lr0.AutomatonOf(u.states), AutomatonFor(u), u.order[i];
    assert StateOk(g, m, q) && u.num(q) == i;
    assert u.num(0) == 0;
    forall x | x in a.goto[i] ensures GotoOk(g, a, i, x) { RenumberedGoto(g, u, i, x); }
  }

  lemma RenumberedOk(g: Grammar, u: Run)
    requires Reordered(u) && AutomatonOk(g, Lr0.AutomatonOf(u.states))
    ensures AutomatonOk(g, AutomatonFor(u))
  {
    hide StateOk;
    forall i | 0 <= i < |u.order| ensures StateOk(g, AutomatonFor(u), i) { RenumberedState(g, u, i); }
  }

  // ----- what every state's list says -----

  lemma {:induction false} SymbolBound(g: Grammar, u: Run, q: nat, a: Action)
    requires RunOk(g, u) && q < |u.states| && a in RawOf(g, u, q)
    ensures a.sp < g.nsym
  {
    hide Drafts, Allocated, Finished;
    var m := Lr0.AutomatonOf(u.states);
    ActionsAreOk(g, u.states, q, u.fws(q), u.address(q));
    assert ActionOk(g, m, q, u.fws(q), a);
    if a.kind == SHIFT {
      var x :| x in m.goto[q] && Covers(x, a.sp) && m.goto[q][x] == a.arg;
      Lr0.BuiltIsAutomaton(g, u.states);
      GotoItem(g, m, q, x);
    }
  }

  lemma GotoItem(g: Grammar, m: Automaton, q: nat, x: Item)
    requires g.Valid() && AutomatonOk(g, m) && q < |m.configs| && x in m.goto[q]
    ensures g.ItemOk(x) && m.goto[q][x] < |m.configs|
  {
    assert StateOk(g, m, q) && GotoOk(g, m, q, x);
    var c :| c in m.configs[q] && Before(g, c, x);
  }

  lemma ResolvedOk(g: Grammar, u: Run, q: nat)
    requires RunOk(g, u) && q < |u.states|
    ensures Settled(g, Lr0.AutomatonOf(u.states), q, u.fws(q), ResolvedOf(g, u, q))
    ensures |ResolvedOf(g, u, q)| < Pow2(LISTSIZE) && forall a :: a in ResolvedOf(g, u, q) ==> a.sp < g.nsym
  {
    hide Drafts, Allocated, MostFrequent, Resolved, Settled, ActionsOk, SortActions, Grouped, Sorted;
    assert ListOk(g, u, q);
    var raw := RawOf(g, u, q);
    ActionsAreOk(g, u.states, q, u.fws(q), u.address(q));
    FinishedSettled(g, Lr0.AutomatonOf(u.states), q, u.fws(q), u.prec, raw);
    SortActionsOk(raw);
    ResolvedWeakens(u.prec, SortActions(raw), 0);
    var xs, ys := SortActions(raw), ResolvedOf(g, u, q);
    forall a | a in ys ensures a.sp < g.nsym {
      var i :| 0 <= i < |ys| && ys[i] == a;
      assert ys[i] == xs[i].(kind := ys[i].kind) && xs[i] in raw;
      SymbolBound(g, u, q, xs[i]);
    }
  }

  lemma PackedOk(g: Grammar, u: Run, q: nat)
    requires RunOk(g, u) && q < |u.states|
    ensures Packable(g, Lr0.AutomatonOf(u.states), q, u.fws(q), PackedOf(g, u, q))
  {
    hide ResolvedOf, RawOf, Settled, Packable, Compressed;
    ResolvedOk(g, u, q);
    assert ListOk(g, u, q);
    CompressedPackable(g, Lr0.AutomatonOf(u.states), q, u.fws(q), ResolvedOf(g, u, q), StartRule(g),
                       u.best(q).0, u.best(q).1);
  }

  // ----- the tables are those of the automaton -----

  /** What the written action of an entry decodes to. */
  lemma EntryDecodes(g: Grammar, u: Run, i: nat, t: nat, a: Action)
    requires RunOk(g, u) && i < |u.order| && t < g.nterm && a.sp == t
    requires ActionOk(g, Lr0.AutomatonOf(u.states), u.order[i], u.fws(u.order[i]), a)
    ensures ActOk(g, AutomatonFor(u), i, t, Decode(SizesOf(g, u), CodeOf(SizesOf(g, u), u.num, a)))
  {
    hide RawOf, ResolvedOf, Allocated, Drafts;
    var m, q := Lr0.AutomatonOf(u.states), u.order[i];
    Lr0.BuiltIsAutomaton(g, u.states);
    if a.kind == SHIFT {
      var x :| x in m.goto[q] && Covers(x, a.sp) && m.goto[q][x] == a.arg;
      GotoItem(g, m, q, x);
      assert x in AutomatonFor(u).goto[i];
    }
  }

  lemma DefaultDecodes(g: Grammar, u: Run, i: nat, t: nat, acts: seq<Action>)
    requires RunOk(g, u) && i < |u.order| && t < g.nterm
    requires Packable(g, Lr0.AutomatonOf(u.states), u.order[i], u.fws(u.order[i]), acts)
    ensures ActOk(g, AutomatonFor(u), i, t, Decode(SizesOf(g, u), DefaultOf(SizesOf(g, u), u.num, acts)))
  {
    hide RunOk, ActionOk, Row;
    var z := SizesOf(g, u);
    RunShape(g, u);
    RowIs(z, u.num, acts, z.nsym, z.nsym + 1);
    if a :| a in acts && Emitted(a) && a.sp == z.nsym {
      assert Find(Row(z, u.num, acts, z.nsym, z.nsym + 1), z.nsym) == Is(CodeOf(z, u.num, a));
    } else {
      NoEntry(z, u.num, acts, z.nsym, z.nsym + 1, z.nsym);
    }
  }

  lemma TokenDecodes(g: Grammar, u: Run, i: nat, t: nat, acts: seq<Action>)
    requires RunOk(g, u) && i < |u.order| && t < g.nterm
    requires Packable(g, Lr0.AutomatonOf(u.states), u.order[i], u.fws(u.order[i]), acts)
    ensures var z := SizesOf(g, u);
      ActOk(g, AutomatonFor(u), i, t, Decode(z, match Find(Row(z, u.num, acts, 0, z.nterm), t)
        case Is(c) => c
        case Nothing => DefaultOf(z, u.num, acts)))
  {
    hide RunOk, ActionOk, Row, ActOk, Decode, DefaultOf, AutomatonFor;
    var z := SizesOf(g, u);
    RunShape(g, u);
    RowIs(z, u.num, acts, 0, z.nterm);
    if a :| a in acts && Emitted(a) && a.sp == t {
      EntryDecodes(g, u, i, t, a);
    } else {
      NoEntry(z, u.num, acts, 0, z.nterm, t);
      DefaultDecodes(g, u, i, t, acts);
    }
  }

  lemma RunShape(g: Grammar, u: Run)
    requires RunOk(g, u)
    ensures g.Valid() && Reordered(u) && Lr0.Built(g, u.states) && |u.states| > 0
  {}

  lemma GotoDecodes(g: Grammar, u: Run, i: nat, n: nat, acts: seq<Action>, o: Answer)
    requires RunOk(g, u) && i < |u.order| && g.nterm <= n < g.nsym
    requires Packable(g, Lr0.AutomatonOf(u.states), u.order[i], u.fws(u.order[i]), acts)
    requires var z := SizesOf(g, u);
      Find(Row(z, u.num, acts, z.nterm, z.nsym), n).Is? ==> o == Find(Row(z, u.num, acts, z.nterm, z.nsym), n)
    ensures GoOk(g, AutomatonFor(u), i, n, DecodeGo(SizesOf(g, u), o))
  {
    hide RunOk, ActionOk, Row;
    var z, m, q := SizesOf(g, u), Lr0.AutomatonOf(u.states), u.order[i];
    RunShape(g, u);
    Lr0.BuiltIsAutomaton(g, u.states);
    RowIs(z, u.num, acts, z.nterm, z.nsym);
    if One(n) in m.goto[q] {
      GotoItem(g, m, q, One(n));
      var a :| a in acts && a.sp == n && a.kind == SHIFT && a.arg == m.goto[q][One(n)];
      assert CodeOf(z, u.num, a) == u.num(m.goto[q][One(n)]);
    }
    if i == 0 && n == g.start {
      var a :| a in acts && a.sp == g.start && a.kind == ACCEPT;
      assert CodeOf(z, u.num, a) == z.nstate + z.nrule + 1;
      if One(n) in m.goto[q] { NoStart(g, m, q, n); }
    }
  }

  /**
   The tables the generator writes, if every search of the action table succeeded and no rule is longer than 255,
   answer as the automaton demands. With `DriverSound` and `AcceptedIsSentence` the generated parser is sound.
   */
  lemma GeneratedTablesOk(g: Grammar, u: Run, t: Arrays)
    requires RunOk(g, u) && AllPacked(SizesOf(g, u), u.num, t, Lists(g, u))
    requires forall r :: 0 <= r < |g.rules| ==> |g.rules[r].rhs| < 256
    ensures TablesOk(g, AutomatonFor(u), TablesOf(g, SizesOf(g, u), t))
  {
    hide RunOk, Packable, PackedOf, Row, DefaultOf, ActOk, GoOk, AutomatonOk, FindShift, FindReduce, Decode, DecodeGo;
    RunShape(g, u);
    Lr0.BuiltIsAutomaton(g, u.states);
    RenumberedOk(g, u);
    var z, ts := SizesOf(g, u), TablesOf(g, SizesOf(g, u), t);
    forall q, la | 0 <= q < |u.order| && 0 <= la < g.nterm ensures ActOk(g, AutomatonFor(u), q, la, ts.act(q, la)) {
      assert StatePacked(z, u.num, t, q, Lists(g, u)[q]);
      PackedOk(g, u, u.order[q]);
      TokenDecodes(g, u, q, la, Lists(g, u)[q]);
    }
    forall q, n | 0 <= q < |u.order| && g.nterm <= n < g.nsym ensures GoOk(g, AutomatonFor(u), q, n, ts.go(q, n)) {
      assert StatePacked(z, u.num, t, q, Lists(g, u)[q]);
      PackedOk(g, u, u.order[q]);
      GotoDecodes(g, u, q, n, Lists(g, u)[q], FindReduce(t, q, n));
    }
  }
}
