/**
 The generated parser from end to end: tables made of any valid grammar, with the follow sets the generator computes,
 accept only at the end of the input, and only what the grammar derives.
 */
module LrAcceptance {
  import opened Grammars
  import opened LrDriver
  import opened LrActions
  import opened LrCompress
  import opened ActionTable
  import opened LrTables
  import opened LrGenerator
  import opened LrRefinement
  import opened LrLookahead
  import opened MergeSort
  import Lr0

  // ----- follow sets of a run -----

  /** The follow sets the generator works with are the lookaheads. */
  ghost predicate FollowOk(g: Grammar, u: Run) {
    var a := Lr0.AutomatonOf(u.states);
    forall q, c, t: nat {:trigger t in u.fws(q)(c)} :: InStates(a, Place(q, c)) ==>
      (t in u.fws(q)(c) <==> Lookahead(g, a, Place(q, c), t))
  }

  function FollowAt(ps: seq<Place>, sets: seq<set<nat>>, p: Place): set<nat>
    requires |sets| == |ps|
  {
    if p in ps then sets[IndexOf(ps, p)] else {}
  }

  function FollowOf(ps: seq<Place>, sets: seq<set<nat>>): nat -> Config -> set<nat>
    requires |sets| == |ps|
  {
    (q: nat) => (c: Config) => FollowAt(ps, sets, Place(q, c))
  }

  /** So they are when they are the ones `FollowSetsOf` returned. */
  lemma ComputedFollow(g: Grammar, u: Run, ps: seq<Place>, sets: seq<set<nat>>)
    requires AllPlaces(Lr0.AutomatonOf(u.states), ps) && |sets| == |ps|
    requires forall k, t: nat :: 0 <= k < |ps| ==> (t in sets[k] <==> Lookahead(g, Lr0.AutomatonOf(u.states), ps[k], t))
    requires u.fws == FollowOf(ps, sets)
    ensures FollowOk(g, u)
  {
    hide Lookahead, InStates, Lr0.AutomatonOf, Lr0.NoDup;
    var a := Lr0.AutomatonOf(u.states);
    forall q, c, t: nat | InStates(a, Place(q, c))
      ensures t in u.fws(q)(c) <==> Lookahead(g, a, Place(q, c), t)
    {
      var p := Place(q, c);
      assert p in ps;
      assert u.fws(q)(c) == sets[IndexOf(ps, p)];
    }
  }

  // ----- the start rules in the tables -----

  /** The driver reduces by a start rule only at the end of the input. */
  ghost predicate EndsAtEnd(g: Grammar, a: Automaton, ts: Tables) {
    forall q, t :: 0 <= q < |a.configs| && 0 <= t < g.nterm && StartReduce(g, ts.act(q, t)) ==> t == 0
  }

  predicate StartReduce(g: Grammar, act: Act) { act.ReduceBy? && IsStart(g, act.rule) }

  /** An action of a resolved list that reduces by a start rule is on the end of the input. */
  lemma ListedAtEnd(g: Grammar, u: Run, q: nat, la: nat, d: Does)
    requires RunOk(g, u) && FollowOk(g, u) && q < |u.states| && la < g.nterm
    requires LrCompress.Written(ResolvedOf(g, u, q), la, d) && d.kind == REDUCE && IsStart(g, d.arg)
    ensures la == 0
  {
    hide RunOk, ResolvedOf, Lookahead;
    var m := Lr0.AutomatonOf(u.states);
    ResolvedOk(g, u, q);
    RunShape(g, u);
    var x :| x in ResolvedOf(g, u, q) && Emitted(x) && x.sp == la && x.kind == d.kind && x.arg == d.arg;
    assert ActionOk(g, m, q, u.fws(q), x);
    var c := Config(d.arg, |g.rules[d.arg].rhs|);
    assert InStates(m, Place(q, c)) && la in u.fws(q)(c);
    StartBeforeEnd(g, m, Place(q, c), la);
  }

  /** What the packed list of a state does on a token. */
  lemma SomethingDone(acts: seq<Action>, nsym: nat, t: nat) returns (d: Does)
    ensures OnToken(acts, nsym, t, d)
  {
    if e :| LrCompress.Written(acts, t, e) {
      d := e;
    } else if e :| LrCompress.Written(acts, nsym, e) {
      d := e;
    } else {
      d := Does(ERROR, 0);
    }
  }

  /** On a token for which the resolved list has no action the packed list reduces by no start rule. */
  lemma DefaultIsNoStart(g: Grammar, u: Run, q: nat, la: nat, d: Does)
    requires RunOk(g, u) && q < |u.states| && la < g.nterm && OnToken(PackedOf(g, u, q), g.nsym, la, d)
    requires forall e :: !LrCompress.Written(ResolvedOf(g, u, q), la, e)
    ensures d == Does(ERROR, 0) || (d.kind == REDUCE && !IsStart(g, d.arg))
  {
    hide ResolvedOf, RawOf, MostFrequent, Compressed, OnToken;
    ResolvedOk(g, u, q);
    assert ListOk(g, u, q);
    CompressionKeepsActions(ResolvedOf(g, u, q), StartRule(g), u.best(q).0, u.best(q).1, g.nsym, la, d);
  }

  /** The shifts of a resolved list decode to shifts. */
  lemma ListedShift(g: Grammar, u: Run, q: nat, la: nat, d: Does)
    requires RunOk(g, u) && q < |u.states| && la < g.nterm && LrCompress.Written(ResolvedOf(g, u, q), la, d)
    ensures d.kind == REDUCE || (d.kind == SHIFT && u.num(d.arg) < |u.states|)
  {
    hide RunOk, ResolvedOf;
    var m := Lr0.AutomatonOf(u.states);
    RunShape(g, u);
    ResolvedOk(g, u, q);
    Lr0.BuiltIsAutomaton(g, u.states);
    var x :| x in ResolvedOf(g, u, q) && Emitted(x) && x.sp == la && x.kind == d.kind && x.arg == d.arg;
    ShiftOrReduce(g, m, q, u.fws(q), x);
    if d.kind == SHIFT { PlaceOf(u, d.arg); }
  }

  /** The written tables reduce by a start rule only at the end of the input. */
  lemma GeneratedEndsAtEnd(g: Grammar, u: Run, t: Arrays)
    requires RunOk(g, u) && FollowOk(g, u) && AllPacked(SizesOf(g, u), u.num, t, Lists(g, u))
    ensures EndsAtEnd(g, AutomatonFor(u), TablesOf(g, SizesOf(g, u), t))
  {
    hide RunOk, FollowOk, AllPacked, StartReduce;
    RunShape(g, u);
    var ts := TablesOf(g, SizesOf(g, u), t);
    forall i, la | 0 <= i < |u.order| && 0 <= la < g.nterm && StartReduce(g, ts.act(i, la)) ensures la == 0 {
      StateEndsAtEnd(g, u, t, i, la);
    }
  }

  lemma StateEndsAtEnd(g: Grammar, u: Run, t: Arrays, i: nat, la: nat)
    requires RunOk(g, u) && FollowOk(g, u) && AllPacked(SizesOf(g, u), u.num, t, Lists(g, u)) && i < |u.order|
    requires la < g.nterm && StartReduce(g, TablesOf(g, SizesOf(g, u), t).act(i, la))
    ensures la == 0
  {
    hide RunOk, FollowOk, ResolvedOf, PackedOf, Row, DefaultOf, FindShift, MostFrequent, OnToken, AllPacked;
    RunShape(g, u);
    var z, q := SizesOf(g, u), u.order[i];
    assert u.num(q) == i;
    StateNumber(g, u, t, q);
    PackedOk(g, u, q);
    if d :| LrCompress.Written(ResolvedOf(g, u, q), la, d) {
      PackedKeeps(g, u, q, la, d);
      DoesCode(z, u.num, PackedOf(g, u, q), la, d);
      ListedShift(g, u, q, la, d);
      if d.kind == REDUCE && IsStart(g, d.arg) { ListedAtEnd(g, u, q, la, d); }
    } else {
      var d := SomethingDone(PackedOf(g, u, q), g.nsym, la);
      DoesCode(z, u.num, PackedOf(g, u, q), la, d);
      DefaultIsNoStart(g, u, q, la, d);
    }
  }

  // ----- the driver with such tables -----

  /** A turn accepts only on the end of the input. */
  lemma TurnAtEnd(g: Grammar, a: Automaton, ts: Tables, p: Parser, t: nat, depth: nat)
    requires g.Valid() && TablesOk(g, a, ts) && EndsAtEnd(g, a, ts) && Good(g, a, p) && t < g.nterm
    requires p.stack != [] ==> p.result.Going?
    ensures Turn(g, ts, p, t, depth).result.Accepted? ==> p.result.Accepted? || t == 0
  {
    hide AutomatonOk, Step, Read, Reduce, Sentence, Derivation;
    if p.stack != [] && p.waiting {
      var n := |p.stack| - 1;
      StatesInRange(g, a, p.stack, n);
      AutomatonSize(g, a);
      var act := ts.act(p.stack[n].state, t);
      assert ActOk(g, a, p.stack[n].state, t, act);
      if act.ReduceBy? && Reduce(g, ts, p, act.rule, depth).result.Accepted? {
        LrDriver.ReduceOk(g, a, ts, p, act.rule, depth);
        AcceptsStart(g, a, ts, p, act.rule, depth);
        assert StartReduce(g, act);
      }
    }
  }

  /** A reduction that accepts is by a start rule. */
  lemma AcceptsStart(g: Grammar, a: Automaton, ts: Tables, p: Parser, r: nat, depth: nat)
    requires Good(g, a, Reduce(g, ts, p, r, depth)) && Reduce(g, ts, p, r, depth).result.Accepted?
    requires p.result.Going? && r < |g.rules|
    ensures IsStart(g, r)
  {
    hide Derivation, Read, Path;
  }

  lemma {:induction false} TurnsAtEnd(g: Grammar, a: Automaton, ts: Tables, p: Parser, t: nat, depth: nat, n: nat)
    requires g.Valid() && TablesOk(g, a, ts) && EndsAtEnd(g, a, ts) && Good(g, a, p) && t < g.nterm
    requires p.stack != [] ==> p.result.Going?
    ensures Turns(g, ts, p, t, depth, n).result.Accepted? ==> p.result.Accepted? || t == 0
    decreases n
  {
    hide TablesOk, EndsAtEnd, Good, Turn;
    if n > 0 {
      TurnOk(g, a, ts, p, t, depth);
      TurnAtEnd(g, a, ts, p, t, depth);
      TurnsAtEnd(g, a, ts, Turn(g, ts, p, t, depth), t, depth, n - 1);
    }
  }

  /** Whatever was fed to it, the parser has accepted only if the last token was the end of the input. */
  lemma AcceptedAtEnd(g: Grammar, a: Automaton, ts: Tables, tokens: seq<nat>, turns: nat -> nat, depth: nat)
    requires g.Valid() && TablesOk(g, a, ts) && EndsAtEnd(g, a, ts)
    requires forall i :: 0 <= i < |tokens| ==> tokens[i] < g.nterm
    requires Feed(g, ts, Idle, tokens, turns, depth).result.Accepted?
    ensures tokens != [] && tokens[|tokens| - 1] == 0
  {
    hide TablesOk, EndsAtEnd, Good, Turns;
    var n := |tokens| - 1;
    DriverSound(g, a, ts, tokens[..n], turns, depth);
    var q := Feed(g, ts, Idle, tokens[..n], turns, depth);
    BeginOk(g, a, q);
    TurnsAtEnd(g, a, ts, Begin(q), tokens[n], depth, turns(n));
  }

  /** A token that was used up without a syntax error was shifted, so it is not the end of the input. */
  lemma {:induction false} UsedUp(g: Grammar, ts: Tables, p: Parser, t: nat, depth: nat, n: nat)
    requires p.stack != [] && p.waiting
    ensures var q := Turns(g, ts, p, t, depth, n); q.stack != [] && !q.waiting && !q.errors ==> t != 0
    decreases n
  {
    hide Reduce;
    if n > 0 {
      var p1 := Turn(g, ts, p, t, depth);
      var act := ts.act(p.stack[|p.stack| - 1].state, t);
      if act.ReduceBy? { ReduceShifts(g, ts, p, act.rule, depth); }
      if p1.stack != [] && p1.waiting {
        UsedUp(g, ts, p1, t, depth, n - 1);
      } else {
        TurnsIdle(g, ts, p1, t, depth, n - 1);
      }
    }
  }

  lemma FedToken(g: Grammar, ts: Tables, tokens: seq<nat>, turns: nat -> nat, depth: nat, k: nat)
    requires 0 < k <= |tokens| && Fed(g, ts, tokens, turns, depth, k)
    ensures tokens[k - 1] != 0
  {
    hide Turns;
    assert tokens[..k][..k - 1] == tokens[..k - 1];
    UsedUp(g, ts, Begin(Feed(g, ts, Idle, tokens[..k - 1], turns, depth)), tokens[k - 1], depth, turns(k - 1));
  }

  /**
   The parser generated from a valid grammar: if it uses up every token but the last without a syntax error and accepts
   on the last, the tokens are a sentence of the grammar followed by the end of the input, and nothing else; the tree it
   built derives that sentence. Whatever the tokens, it accepts on no other than the end of the input.
   */
  lemma GeneratedParserSound(g: Grammar, u: Run, t: Arrays, tokens: seq<nat>, turns: nat -> nat, depth: nat)
    requires RunOk(g, u) && FollowOk(g, u) && AllPacked(SizesOf(g, u), u.num, t, Lists(g, u))
    requires forall r :: 0 <= r < |g.rules| ==> |g.rules[r].rhs| < 256
    requires forall i :: 0 <= i < |tokens| ==> tokens[i] < g.nterm
    requires Feed(g, TablesOf(g, SizesOf(g, u), t), Idle, tokens, turns, depth).result.Accepted?
    ensures tokens != [] && tokens[|tokens| - 1] == 0
    ensures var ts, n := TablesOf(g, SizesOf(g, u), t), |tokens| - 1;
      var p := Feed(g, ts, Idle, tokens, turns, depth);
      !p.errors && (forall i :: 0 < i <= n ==> Fed(g, ts, tokens, turns, depth, i)) ==>
        Sentence(g, p.result.tree, tokens[..n]) && forall i :: 0 <= i < n ==> tokens[i] != 0
  {
    hide RunOk, FollowOk, AllPacked, TablesOk, EndsAtEnd, Feed, Sentence;
    RunShape(g, u);
    var ts, a := TablesOf(g, SizesOf(g, u), t), AutomatonFor(u);
    GeneratedTablesOk(g, u, t);
    GeneratedEndsAtEnd(g, u, t);
    AcceptedAtEnd(g, a, ts, tokens, turns, depth);
    var n, p := |tokens| - 1, Feed(g, ts, Idle, tokens, turns, depth);
    if !p.errors && (forall i :: 0 < i <= n ==> Fed(g, ts, tokens, turns, depth, i)) {
      AcceptedIsSentence(g, a, ts, tokens, turns, depth);
      forall i | 0 <= i < n ensures tokens[i] != 0 { FedToken(g, ts, tokens, turns, depth, i + 1); }
    }
  }
}
