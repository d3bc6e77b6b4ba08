/**
 Compression, renumbering and packing change no run that meets no syntax error: the parser that reads the
 written tables makes the same shifts and reductions as one that reads the resolved action lists.
 */
module LrRefinement {
  import opened Grammars
  import opened LrDriver
  import opened LrActions
  import opened LrCompress
  import opened ActionTable
  import opened MergeSort
  import opened LrTables
  import opened LrGenerator
  import Lr0

  // ----- tables that agree but for the numbers of the states -----

  function Renamed(num: nat -> nat, a: Act): Act { if a.ShiftTo? then ShiftTo(num(a.state)) else a }

  ghost predicate Agree(g: Grammar, n: nat, num: nat -> nat, ts: Tables, us: Tables) {
    num(0) == 0 && (forall r :: 0 <= r < |g.rules| ==> ts.len(r) == us.len(r)) &&
    (forall q, t :: 0 <= q < n && 0 <= t < g.nterm && ts.act(q, t) != Error ==>
       (ts.act(q, t).ShiftTo? ==> ts.act(q, t).state < n) && us.act(num(q), t) == Renamed(num, ts.act(q, t))) &&
    forall q, x :: 0 <= q < n && 0 <= x < g.nsym && (ts.go(q, x).ShiftTo? || ts.go(q, x).Accept?) ==>
      (ts.go(q, x).ShiftTo? ==> ts.go(q, x).state < n) && us.go(num(q), x) == Renamed(num, ts.go(q, x))
  }

  function RenamedStack(num: nat -> nat, es: seq<Entry>): (r: seq<Entry>)
    ensures |r| == |es| && forall i :: 0 <= i < |es| ==> r[i] == Entry(num(es[i].state), es[i].tree)
  {
    seq(|es|, i requires 0 <= i < |es| => Entry(num(es[i].state), es[i].tree))
  }

  function RenamedParser(num: nat -> nat, p: Parser): Parser { p.(stack := RenamedStack(num, p.stack)) }

  ghost predicate InRange(n: nat, p: Parser) { forall i :: 0 <= i < |p.stack| ==> p.stack[i].state < n }

  lemma PushAgrees(num: nat -> nat, p: Parser, e: Entry, depth: nat)
    ensures RenamedParser(num, Push(p, e, depth)) == Push(RenamedParser(num, p), Entry(num(e.state), e.tree), depth)
  {
    assert RenamedStack(num, p.stack + [e]) == RenamedStack(num, p.stack) + [Entry(num(e.state), e.tree)];
    assert RenamedStack(num, []) == [];
  }

  lemma PushStays(n: nat, p: Parser, e: Entry, depth: nat)
    requires InRange(n, p) && e.state < n
    ensures InRange(n, Push(p, e, depth))
  {}

  lemma RenamedSplit(num: nat -> nat, es: seq<Entry>, m: nat)
    requires m <= |es|
    ensures RenamedStack(num, es)[..m] == RenamedStack(num, es[..m])
    ensures Trees(RenamedStack(num, es)[m..]) == Trees(es[m..])
  {}

  lemma LhsInRange(g: Grammar, r: nat)
    requires g.Valid() && r < |g.rules|
    ensures g.nterm <= g.rules[r].lhs < g.nsym
  {}

  lemma ReduceAgrees(g: Grammar, n: nat, num: nat -> nat, ts: Tables, us: Tables, p: Parser, r: nat, depth: nat)
    requires g.Valid() && Agree(g, n, num, ts, us) && InRange(n, p) && Reduce(g, ts, p, r, depth).result != Stuck
    ensures Reduce(g, us, RenamedParser(num, p), r, depth) == RenamedParser(num, Reduce(g, ts, p, r, depth))
    ensures InRange(n, Reduce(g, ts, p, r, depth))
  {
    hide Trees, Grammar.Valid, Push;
    var k := ts.len(r);
    if r < |g.rules| && k < |p.stack| {
      var m := |p.stack| - k;
      var below := p.stack[..m];
      RenamedSplit(num, p.stack, m);
      LhsInRange(g, r);
      var act := ts.go(below[m - 1].state, g.rules[r].lhs);
      if act.ShiftTo? {
        PushAgrees(num, p.(stack := below), Entry(act.state, Branch(r, Trees(p.stack[m..]))), depth);
        PushStays(n, p.(stack := below), Entry(act.state, Branch(r, Trees(p.stack[m..]))), depth);
      }
      assert RenamedStack(num, []) == [];
    }
  }

  /** A turn that is no syntax error. */
  lemma TurnAgrees(g: Grammar, n: nat, num: nat -> nat, ts: Tables, us: Tables, p: Parser, t: nat, depth: nat)
    requires g.Valid() && Agree(g, n, num, ts, us) && InRange(n, p) && t < g.nterm
    requires var q := Turn(g, ts, p, t, depth); q.result != Stuck && !q.errors
    ensures Turn(g, us, RenamedParser(num, p), t, depth) == RenamedParser(num, Turn(g, ts, p, t, depth))
    ensures InRange(n, Turn(g, ts, p, t, depth))
  {
    hide Reduce;
    assert RenamedStack(num, []) == [];
    if p.stack != [] && p.waiting {
      var act := ts.act(p.stack[|p.stack| - 1].state, t);
      match act
      case ShiftTo(s) => PushAgrees(num, p, Entry(s, Leaf(t)), depth);
      case ReduceBy(r) => ReduceAgrees(g, n, num, ts, us, p, r, depth);
      case _ =>
    }
  }

  /** Errors and failed assertions are not forgotten while a token is worked on. */
  lemma {:induction false} TurnsRemember(g: Grammar, ts: Tables, p: Parser, t: nat, depth: nat, n: nat)
    requires p.errors || p.result.Stuck?
    requires p.result.Stuck? ==> p.stack == []
    ensures var q := Turns(g, ts, p, t, depth, n); q.errors || q.result.Stuck?
    decreases n
  {
    hide Reduce;
    if n > 0 {
      var act := ts.act(if p.stack == [] then 0 else p.stack[|p.stack| - 1].state, t);
      if act.ReduceBy? {
        ReduceShifts(g, ts, p, act.rule, depth);
        StuckIsEmpty(g, ts, p, act.rule, depth);
      }
      TurnsRemember(g, ts, Turn(g, ts, p, t, depth), t, depth, n - 1);
    }
  }

  lemma StuckIsEmpty(g: Grammar, ts: Tables, p: Parser, r: nat, depth: nat)
    requires p.result.Stuck? ==> p.stack == []
    ensures Reduce(g, ts, p, r, depth).result.Stuck? ==> Reduce(g, ts, p, r, depth).stack == []
  {}

  lemma {:induction false} TurnsAgree(g: Grammar, n: nat, num: nat -> nat, ts: Tables, us: Tables, p: Parser, t: nat,
                                      depth: nat, k: nat)
    requires g.Valid() && Agree(g, n, num, ts, us) && InRange(n, p) && t < g.nterm
    requires p.result.Stuck? ==> p.stack == []
    requires var q := Turns(g, ts, p, t, depth, k); q.result != Stuck && !q.errors
    ensures Turns(g, us, RenamedParser(num, p), t, depth, k) == RenamedParser(num, Turns(g, ts, p, t, depth, k))
    ensures InRange(n, Turns(g, ts, p, t, depth, k))
    decreases k
  {
    hide Turn, Agree;
    if k > 0 {
      var p1 := Turn(g, ts, p, t, depth);
      TurnStuck(g, ts, p, t, depth);
      if p1.errors || p1.result.Stuck? { TurnsRemember(g, ts, p1, t, depth, k - 1); }
      TurnAgrees(g, n, num, ts, us, p, t, depth);
      TurnsAgree(g, n, num, ts, us, p1, t, depth, k - 1);
    }
  }

  lemma TurnStuck(g: Grammar, ts: Tables, p: Parser, t: nat, depth: nat)
    requires p.result.Stuck? ==> p.stack == []
    ensures Turn(g, ts, p, t, depth).result.Stuck? ==> Turn(g, ts, p, t, depth).stack == []
  {
    hide Reduce;
    if p.stack != [] {
      var act := ts.act(p.stack[|p.stack| - 1].state, t);
      if act.ReduceBy? { StuckIsEmpty(g, ts, p, act.rule, depth); }
    }
  }

  /** The parser has met no error on any of the first `k` tokens. */
  ghost predicate Clean(g: Grammar, ts: Tables, tokens: seq<nat>, turns: nat -> nat, depth: nat, k: nat)
    requires k <= |tokens|
  {
    var p := Feed(g, ts, Idle, tokens[..k], turns, depth);
    !p.errors && !p.result.Stuck?
  }

  /** On an input without errors both parsers go through the same stacks, and have the same result. */
  lemma {:induction false} FeedAgrees(g: Grammar, n: nat, num: nat -> nat, ts: Tables, us: Tables, tokens: seq<nat>,
                                      turns: nat -> nat, depth: nat)
    requires g.Valid() && Agree(g, n, num, ts, us) && n > 0 && forall i :: 0 <= i < |tokens| ==> tokens[i] < g.nterm
    requires forall k :: 0 <= k <= |tokens| ==> Clean(g, ts, tokens, turns, depth, k)
    ensures Feed(g, us, Idle, tokens, turns, depth) == RenamedParser(num, Feed(g, ts, Idle, tokens, turns, depth))
    ensures InRange(n, Feed(g, ts, Idle, tokens, turns, depth))
    decreases |tokens|
  {
    hide Turns;
    if tokens == [] {
      assert RenamedStack(num, []) == [];
    } else {
      var k := |tokens| - 1;
      var less := tokens[..k];
      assert tokens[..|tokens|] == tokens;
      assert Clean(g, ts, tokens, turns, depth, |tokens|) && Clean(g, ts, tokens, turns, depth, k);
      forall i | 0 <= i <= k ensures Clean(g, ts, less, turns, depth, i) {
        assert less[..i] == tokens[..i];
        assert Clean(g, ts, tokens, turns, depth, i);
      }
      FeedAgrees(g, n, num, ts, us, less, turns, depth);
      var p := Feed(g, ts, Idle, less, turns, depth);
      BeginAgrees(n, num, p);
      TurnsAgree(g, n, num, ts, us, Begin(p), tokens[k], depth, turns(k));
    }
  }

  lemma BeginAgrees(n: nat, num: nat -> nat, p: Parser)
    requires num(0) == 0 && n > 0 && InRange(n, p) && !p.result.Stuck?
    ensures Begin(RenamedParser(num, p)) == RenamedParser(num, Begin(p)) && InRange(n, Begin(p))
    ensures !Begin(p).result.Stuck?
  {
    assert RenamedStack(num, [Entry(0, Leaf(0))]) == [Entry(num(0), Leaf(0))];
  }

  // ----- the resolved lists as tables -----

  /** A driver that looks the actions up in the resolved lists. */
  function ListTables(g: Grammar, u: Run): Tables {
    var z := SizesOf(g, u);
    Tables((q: nat, t: nat) => Decode(z, ListShift(g, u, q, t)), (q: nat, x: nat) => DecodeGo(z, ListGoto(g, u, q, x)),
           (r: nat) => Length(g, r))
  }

  function Same(q: nat): nat { q }

  function ListShift(g: Grammar, u: Run, q: nat, t: nat): int {
    var z := SizesOf(g, u);
    if q >= |u.states| then z.nstate + z.nrule
    else
      match Find(Row(z, Same, ResolvedOf(g, u, q), 0, z.nterm), t)
      case Is(c) => c
      case Nothing => z.nstate + z.nrule
  }

  function ListGoto(g: Grammar, u: Run, q: nat, x: nat): Answer {
    var z := SizesOf(g, u);
    if q >= |u.states| then Nothing else Find(Row(z, Same, ResolvedOf(g, u, q), z.nterm, z.nsym), x)
  }

  lemma RowOf(z: Sizes, num: nat -> nat, acts: seq<Action>, lo: nat, hi: nat, t: nat) returns (a: Action)
    requires Find(Row(z, num, acts, lo, hi), t).Is?
    ensures a in acts && Emitted(a) && a.sp == t && lo <= t < hi
    ensures Find(Row(z, num, acts, lo, hi), t) == Is(CodeOf(z, num, a))
  {
    var r := Row(z, num, acts, lo, hi);
    var j := EntryFrom(r, t);
    RowFrom(z, num, acts, lo, hi, j);
    a :| a in acts && Emitted(a) && lo <= a.sp < hi && r[j] == Slot(a.sp, CodeOf(z, num, a));
  }

  /** The packed list does on a token what an entry of kind and argument `d` says. */
  lemma DoesCode(z: Sizes, num: nat -> nat, acts: seq<Action>, t: nat, d: Does)
    requires OneEach(acts) && t < z.nterm <= z.nsym && OnToken(acts, z.nsym, t, d)
    ensures (match Find(Row(z, num, acts, 0, z.nterm), t)
      case Is(c) => c
      case Nothing => DefaultOf(z, num, acts)) == CodeOf(z, num, Action(t, d.kind, d.arg, 0))
  {
    hide Row, Find;
    RowIs(z, num, acts, 0, z.nterm);
    RowIs(z, num, acts, z.nsym, z.nsym + 1);
    if LrCompress.Written(acts, t, d) {
      var a :| a in acts && Emitted(a) && a.sp == t && a.kind == d.kind && a.arg == d.arg;
      assert CodeOf(z, num, a) == CodeOf(z, num, Action(t, d.kind, d.arg, 0));
    } else {
      NotWritten(acts, t);
      NoEntry(z, num, acts, 0, z.nterm, t);
      if LrCompress.Written(acts, z.nsym, d) {
        var a :| a in acts && Emitted(a) && a.sp == z.nsym && a.kind == d.kind && a.arg == d.arg;
        assert Find(Row(z, num, acts, z.nsym, z.nsym + 1), z.nsym) == Is(CodeOf(z, num, a));
      } else {
        NotWritten(acts, z.nsym);
        NoEntry(z, num, acts, z.nsym, z.nsym + 1, z.nsym);
      }
    }
  }

  lemma NotWritten(acts: seq<Action>, t: nat)
    requires forall e :: !LrCompress.Written(acts, t, e)
    ensures forall a :: a in acts && Emitted(a) ==> a.sp != t
  {
    forall a | a in acts && Emitted(a) ensures a.sp != t {
      assert !LrCompress.Written(acts, t, Does(a.kind, a.arg));
    }
  }

  /** What a state's list does on a token that is no error. */
  lemma ListDoes(g: Grammar, u: Run, q: nat, la: nat) returns (d: Does)
    requires RunOk(g, u) && q < |u.states| && la < g.nterm && ListTables(g, u).act(q, la) != Error
    ensures LrCompress.Written(ResolvedOf(g, u, q), la, d)
    ensures (d.kind == SHIFT && d.arg < |u.states|) || (d.kind == REDUCE && d.arg < |g.rules|)
    ensures ListShift(g, u, q, la) == CodeOf(SizesOf(g, u), Same, Action(la, d.kind, d.arg, 0))
  {
    hide RunOk, ResolvedOf, Row, FindShift, MostFrequent, OnToken, Lr0.AutomatonOf, ActionOk, AutomatonOk,
         Grammar.Valid, Has, HasKind, Lr0.Built;
    var z, m, acts := SizesOf(g, u), Lr0.AutomatonOf(u.states), ResolvedOf(g, u, q);
    RunShape(g, u);
    Lr0.BuiltIsAutomaton(g, u.states);
    ResolvedOk(g, u, q);
    var a := RowOf(z, Same, acts, 0, z.nterm, la);
    ShiftOrReduce(g, m, q, u.fws(q), a);
    d := Does(a.kind, a.arg);
  }

  lemma ShiftsAgree(g: Grammar, u: Run, t: Arrays, q: nat, la: nat)
    requires RunOk(g, u) && AllPacked(SizesOf(g, u), u.num, t, Lists(g, u)) && q < |u.states| && la < g.nterm
    requires ListTables(g, u).act(q, la) != Error
    ensures var act := ListTables(g, u).act(q, la);
      (act.ShiftTo? ==> act.state < |u.states|) &&
      TablesOf(g, SizesOf(g, u), t).act(u.num(q), la) == Renamed(u.num, act)
  {
    hide RunOk, ResolvedOf, PackedOf, Row, DefaultOf, FindShift, MostFrequent, OnToken, AllPacked, Lr0.AutomatonOf;
    hide ActionOk, AutomatonOk, Grammar.Valid, OneEach, Has, HasKind, Reordered, Lr0.Built, ListShift;
    var z := SizesOf(g, u);
    RunShape(g, u);
    StateNumber(g, u, t, q);
    var d := ListDoes(g, u, q, la);
    PackedKeeps(g, u, q, la, d);
    PackedOk(g, u, q);
    DoesCode(z, u.num, PackedOf(g, u, q), la, d);
  }

  lemma PackedKeeps(g: Grammar, u: Run, q: nat, t: nat, d: Does)
    requires RunOk(g, u) && q < |u.states| && t < g.nterm && LrCompress.Written(ResolvedOf(g, u, q), t, d)
    ensures OnToken(PackedOf(g, u, q), g.nsym, t, d)
  {
    hide RawOf, ResolvedOf, MostFrequent, OnToken, Compressed;
    ResolvedOk(g, u, q);
    assert ListOk(g, u, q);
    CompressionKeepsActions(ResolvedOf(g, u, q), StartRule(g), u.best(q).0, u.best(q).1, g.nsym, t, d);
  }

  lemma ShiftOrReduce(g: Grammar, m: Automaton, q: nat, fws: Config -> set<nat>, a: Action)
    requires g.Valid() && AutomatonOk(g, m) && q < |m.configs| && |m.goto| == |m.configs|
    requires ActionOk(g, m, q, fws, a) && a.sp < g.nterm
    ensures (a.kind == SHIFT && a.arg < |m.configs|) || (a.kind == REDUCE && a.arg < |g.rules|)
  {
    if a.kind == SHIFT {
      var x :| x in m.goto[q] && Covers(x, a.sp) && m.goto[q][x] == a.arg;
      GotoItem(g, m, q, x);
    }
  }

  /** The arrays answer for state `q` under its final number. */
  lemma StateNumber(g: Grammar, u: Run, t: Arrays, q: nat)
    requires RunOk(g, u) && AllPacked(SizesOf(g, u), u.num, t, Lists(g, u)) && q < |u.states|
    ensures u.num(q) < |u.states| && StatePacked(SizesOf(g, u), u.num, t, u.num(q), PackedOf(g, u, q))
    ensures |Lr0.AutomatonOf(u.states).configs| == |u.states|
  {
    hide StatePacked, PackedOf, ListOk;
    PlaceOf(u, q);
    assert Lists(g, u)[u.num(q)] == PackedOf(g, u, u.order[u.num(q)]);
  }

  lemma GotosAgree(g: Grammar, u: Run, t: Arrays, q: nat, x: nat)
    requires RunOk(g, u) && AllPacked(SizesOf(g, u), u.num, t, Lists(g, u)) && q < |u.states| && x < g.nsym
    requires ListTables(g, u).go(q, x).ShiftTo? || ListTables(g, u).go(q, x).Accept?
    ensures var act := ListTables(g, u).go(q, x);
      (act.ShiftTo? ==> act.state < |u.states|) && TablesOf(g, SizesOf(g, u), t).go(u.num(q), x) == Renamed(u.num, act)
  {
    hide RunOk, ResolvedOf, PackedOf, Row, DefaultOf, FindReduce, AllPacked;
    var z, acts := SizesOf(g, u), ResolvedOf(g, u, q);
    RunShape(g, u);
    StateNumber(g, u, t, q);
    var a := RowOf(z, Same, acts, z.nterm, z.nsym, x);
    NonterminalKind(g, u, q, a);
    KeptPacked(g, u, q, a);
    PackedOk(g, u, q);
    RowIs(z, u.num, PackedOf(g, u, q), z.nterm, z.nsym);
  }

  lemma NonterminalKind(g: Grammar, u: Run, q: nat, a: Action)
    requires RunOk(g, u) && q < |u.states| && a in ResolvedOf(g, u, q) && Emitted(a) && a.sp >= g.nterm
    ensures (a.kind == SHIFT && a.arg < |u.states|) || a.kind == ACCEPT
  {
    hide RunOk, ResolvedOf;
    var m := Lr0.AutomatonOf(u.states);
    RunShape(g, u);
    Lr0.BuiltIsAutomaton(g, u.states);
    ResolvedOk(g, u, q);
    assert ActionOk(g, m, q, u.fws(q), a);
    if a.kind == SHIFT {
      var x :| x in m.goto[q] && Covers(x, a.sp) && m.goto[q][x] == a.arg;
      GotoItem(g, m, q, x);
    }
  }

  lemma KeptPacked(g: Grammar, u: Run, q: nat, a: Action)
    requires RunOk(g, u) && q < |u.states| && a in ResolvedOf(g, u, q) && a.kind != REDUCE
    ensures a in PackedOf(g, u, q)
  {
    hide RunOk, ResolvedOf, Defaulted, SortActions, Sorted, Grouped;
    ResolvedOk(g, u, q);
    var acts, r := ResolvedOf(g, u, q), u.best(q).1;
    KeptIn(acts, r, g.nsym, a);
    SortActionsOk(Defaulted(acts, r, g.nsym, false));
  }

  /**
   The written tables and the resolved lists agree. With `FeedAgrees`: every input that the resolved lists parse
   without a syntax error is parsed with the same stacks, shifts and reductions, and accepted alike.
   */
  lemma WrittenTablesAgree(g: Grammar, u: Run, t: Arrays)
    requires RunOk(g, u) && AllPacked(SizesOf(g, u), u.num, t, Lists(g, u))
    ensures Agree(g, |u.states|, u.num, ListTables(g, u), TablesOf(g, SizesOf(g, u), t))
  {
    hide RunOk, AllPacked, ListShift, ListGoto, FindShift, FindReduce, Decode, DecodeGo;
    RunShape(g, u);
    PlaceOf(u, u.order[0]);
    var ts, us := ListTables(g, u), TablesOf(g, SizesOf(g, u), t);
    forall q, la | 0 <= q < |u.states| && 0 <= la < g.nterm && ts.act(q, la) != Error
      ensures (ts.act(q, la).ShiftTo? ==> ts.act(q, la).state < |u.states|) &&
              us.act(u.num(q), la) == Renamed(u.num, ts.act(q, la))
    {
      ShiftsAgree(g, u, t, q, la);
    }
    forall q, x | 0 <= q < |u.states| && 0 <= x < g.nsym && (ts.go(q, x).ShiftTo? || ts.go(q, x).Accept?)
      ensures (ts.go(q, x).ShiftTo? ==> ts.go(q, x).state < |u.states|) &&
              us.go(u.num(q), x) == Renamed(u.num, ts.go(q, x))
    {
      GotosAgree(g, u, t, q, x);
    }
  }
}
