/**
 The driver of a generated parser: shifts and reduces over a stack of states. What it reads of the
 tables is abstract here; what the tables must promise is `TablesOk`.
 */
module LrDriver {
  import opened Grammars

  datatype Config = Config(rule: nat, dot: nat)

  /** The LR(0) automaton: the configurations of every state, and where each element leads. */
  datatype Automaton = Automaton(configs: seq<set<Config>>, goto: seq<map<Item, nat>>)

  ghost predicate ConfigOk(g: Grammar, c: Config) { c.rule < |g.rules| && c.dot <= |g.rules[c.rule].rhs| }

  /** The element after the dot. */
  ghost predicate Before(g: Grammar, c: Config, x: Item) {
    ConfigOk(g, c) && c.dot < |g.rules[c.rule].rhs| && g.rules[c.rule].rhs[c.dot] == x
  }

  /** A configuration at the start of its rule is there because some configuration waits for its left side. */
  ghost predicate Waited(g: Grammar, cs: set<Config>, r: nat)
    requires r < |g.rules|
  {
    exists c :: c in cs && Before(g, c, One(g.rules[r].lhs))
  }

  ghost predicate StateOk(g: Grammar, a: Automaton, q: nat)
    requires q < |a.configs| && |a.goto| == |a.configs|
  {
    (forall c :: c in a.configs[q] ==> ConfigOk(g, c)) &&
    (forall c :: c in a.configs[q] && c.dot == 0 ==>
       Waited(g, a.configs[q], c.rule) || (q == 0 && g.rules[c.rule].lhs == g.start)) &&
    (q == 0 ==> forall c :: c in a.configs[q] ==> c.dot == 0) &&
    (forall c, x :: c in a.configs[q] && Before(g, c, x) ==> x in a.goto[q]) &&
    (forall x :: x in a.goto[q] ==> GotoOk(g, a, q, x))
  }

  /** A transition leads to a state whose advanced configurations come from `q`. */
  ghost predicate GotoOk(g: Grammar, a: Automaton, q: nat, x: Item)
    requires q < |a.configs| && |a.goto| == |a.configs| && x in a.goto[q]
  {
    var t := a.goto[q][x];
    0 < t < |a.configs| && (exists c :: c in a.configs[q] && Before(g, c, x)) &&
    forall c :: c in a.configs[t] && c.dot > 0 ==>
      Config(c.rule, c.dot - 1) in a.configs[q] && Before(g, Config(c.rule, c.dot - 1), x)
  }

  ghost predicate AutomatonOk(g: Grammar, a: Automaton) {
    0 < |a.configs| == |a.goto| && forall q :: 0 <= q < |a.configs| ==> StateOk(g, a, q)
  }

  // ----- tables -----

  datatype Act = ShiftTo(state: nat) | ReduceBy(rule: nat) | Error | Accept | Broken

  /** What the driver reads: `yy_find_shift_action` and `yy_find_reduce_action`, and each rule's recorded length. */
  datatype Tables = Tables(act: (nat, nat) -> Act, go: (nat, nat) -> Act, len: nat -> nat)

  ghost predicate ActOk(g: Grammar, a: Automaton, q: nat, t: nat, act: Act)
    requires q < |a.configs| && |a.goto| == |a.configs|
  {
    match act
    case ShiftTo(s) => t != 0 && exists x :: x in a.goto[q] && Covers(x, t) && a.goto[q][x] == s
    case ReduceBy(r) => r < |g.rules| && Config(r, |g.rules[r].rhs|) in a.configs[q]
    case Error => true
    case _ => false
  }

  ghost predicate GoOk(g: Grammar, a: Automaton, q: nat, n: nat, act: Act)
    requires q < |a.configs| && |a.goto| == |a.configs|
  {
    (One(n) in a.goto[q] ==> act == ShiftTo(a.goto[q][One(n)])) && (q == 0 && n == g.start ==> act == Accept)
  }

  ghost predicate TablesOk(g: Grammar, a: Automaton, ts: Tables) {
    AutomatonOk(g, a) &&
    (forall q, t :: 0 <= q < |a.configs| && 0 <= t < g.nterm ==> ActOk(g, a, q, t, ts.act(q, t))) &&
    (forall q, n :: 0 <= q < |a.configs| && g.nterm <= n < g.nsym ==> GoOk(g, a, q, n, ts.go(q, n))) &&
    (forall r :: 0 <= r < |g.rules| ==> ts.len(r) == |g.rules[r].rhs|)
  }

  // ----- the driver -----

  /** A stack entry; the tree stands for the semantic value. */
  datatype Entry = Entry(state: nat, tree: Tree)

  /**
   `stack` is empty when the parser is not running. `shifted` and `errors` record what happened since the
   stack was last empty: the tokens shifted, and whether a syntax error was met. `waiting` is false once the
   current token is used up.
   */
  datatype Parser = Parser(stack: seq<Entry>, waiting: bool, shifted: seq<nat>, errors: bool, result: Result)

  datatype Result = Going | Accepted(tree: Tree) | Failed | Stuck

  /** `yy_shift`: a full stack is emptied. */
  function Push(p: Parser, e: Entry, depth: nat): Parser {
    if |p.stack| >= depth then p.(stack := [], result := Failed) else p.(stack := p.stack + [e])
  }

  function Trees(es: seq<Entry>): (ts: seq<Tree>)
    ensures |ts| == |es| && forall i :: 0 <= i < |es| ==> ts[i] == es[i].tree
  {
    seq(|es|, i requires 0 <= i < |es| => es[i].tree)
  }

  /** `yy_reduce`. */
  function Reduce(g: Grammar, ts: Tables, p: Parser, r: nat, depth: nat): Parser {
    var n := ts.len(r);
    if r >= |g.rules| || n >= |p.stack| then p.(stack := [], result := Stuck)
    else
      var m := |p.stack| - n;
      var below := p.stack[..m];
      var tree := Branch(r, Trees(p.stack[m..]));
      match ts.go(below[m - 1].state, g.rules[r].lhs)
      case ShiftTo(s) => Push(p.(stack := below), Entry(s, tree), depth)
      case Accept => p.(stack := [], result := Accepted(tree))
      case _ => p.(stack := [], result := Stuck)
  }

  /** One turn of the loop in `Parse` with token `t`. */
  function Turn(g: Grammar, ts: Tables, p: Parser, t: nat, depth: nat): Parser {
    if p.stack == [] || !p.waiting then p
    else
      match ts.act(p.stack[|p.stack| - 1].state, t)
      case ShiftTo(s) =>
        if t == 0 then p.(stack := [], result := Stuck)
        else
          var q := Push(p, Entry(s, Leaf(t)), depth);
          q.(waiting := false, shifted := p.shifted + [t])
      case ReduceBy(r) => Reduce(g, ts, p, r, depth)
      case Error =>
        var q := p.(waiting := false, errors := true);
        if t == 0 then q.(stack := [], result := Failed) else q
      case _ => p.(stack := [], result := Stuck)
  }

  function Turns(g: Grammar, ts: Tables, p: Parser, t: nat, depth: nat, n: nat): Parser
    decreases n
  {
    if n == 0 then p else Turns(g, ts, Turn(g, ts, p, t, depth), t, depth, n - 1)
  }

  /** Within `n` turns the loop has ended: the token is used up, or the parser runs no more. */
  ghost predicate EndsWithin(g: Grammar, ts: Tables, p: Parser, t: nat, depth: nat, n: nat) {
    Turns(g, ts, p, t, depth, n).stack == [] || !Turns(g, ts, p, t, depth, n).waiting
  }

  /** The start of `Parse`: a parser that is not running is started; the token is now waiting. */
  function Begin(p: Parser): Parser {
    (if p.stack == [] then Parser([Entry(0, Leaf(0))], true, [], false, Going) else p).(waiting := true)
  }

  /** Parsing a list of tokens, each with a number of turns. */
  function Feed(g: Grammar, ts: Tables, p: Parser, tokens: seq<nat>, turns: nat -> nat, depth: nat): Parser
    decreases |tokens|
  {
    if tokens == [] then p
    else
      var q := Feed(g, ts, p, tokens[..|tokens| - 1], turns, depth);
      Turns(g, ts, Begin(q), tokens[|tokens| - 1], depth, turns(|tokens| - 1))
  }

  // ----- errors -----

  /** Nothing but a new start depends on the errors met. */
  lemma {:induction false} ErrorsUnread(g: Grammar, ts: Tables, p: Parser, t: nat, depth: nat, n: nat)
    ensures Turns(g, ts, p.(errors := true), t, depth, n) == Turns(g, ts, p, t, depth, n).(errors := true)
    decreases n
  {
    if n > 0 {
      var q := p.(errors := true);
      assert Turn(g, ts, q, t, depth) == Turn(g, ts, p, t, depth).(errors := true);
      ErrorsUnread(g, ts, Turn(g, ts, p, t, depth), t, depth, n - 1);
    }
  }

  /**
   A token for which there is no action is left out: the next one is worked off as it would have been in its place. At
   the end of the input the parser fails.
   */
  lemma TokenLeftOut(g: Grammar, ts: Tables, p: Parser, t: nat, next: nat, depth: nat, n: nat)
    requires p.stack != [] && p.waiting && ts.act(p.stack[|p.stack| - 1].state, t).Error?
    ensures var q := Turn(g, ts, p, t, depth);
      !q.waiting && q.errors && q.shifted == p.shifted &&
      if t == 0 then q.stack == [] && q.result == Failed
      else Turns(g, ts, Begin(q), next, depth, n) == Turns(g, ts, p, next, depth, n).(errors := true)
  {
    ErrorsUnread(g, ts, p, next, depth, n);
    if t != 0 { assert Begin(Turn(g, ts, p, t, depth)) == p.(errors := true); }
  }

  /** The stack holds that many entries, and no more: a shift onto a full one empties it and fails. */
  lemma StackHolds(g: Grammar, ts: Tables, p: Parser, t: nat, depth: nat)
    requires p.stack != [] && p.waiting && |p.stack| <= depth
    ensures |Turn(g, ts, p, t, depth).stack| <= depth
    ensures ts.act(p.stack[|p.stack| - 1].state, t).ShiftTo? && t != 0 ==>
      var q := Turn(g, ts, p, t, depth);
      if |p.stack| == depth then q.stack == [] && q.result == Failed
      else q.stack == p.stack + [Entry(ts.act(p.stack[|p.stack| - 1].state, t).state, Leaf(t))]
  {}

  // ----- stacks are paths -----

  /** Entry `i` is reached from the entry below it by an element that its tree's root may stand for. */
  ghost predicate Step(g: Grammar, a: Automaton, lo: Entry, hi: Entry) {
    lo.state < |a.goto| && Derivation(g, hi.tree) &&
    exists x :: x in a.goto[lo.state] && Covers(x, Root(g, hi.tree)) && a.goto[lo.state][x] == hi.state
  }

  ghost predicate Path(g: Grammar, a: Automaton, es: seq<Entry>) {
    es != [] && es[0].state == 0 && forall i :: 0 < i < |es| ==> Step(g, a, es[i - 1], es[i])
  }

  /** What the trees on a stack yield. */
  function Read(es: seq<Entry>): seq<nat>
    requires es != []
  {
    Yields(Trees(es[1..]))
  }

  ghost predicate Good(g: Grammar, a: Automaton, p: Parser) {
    p.result != Stuck &&
    (p.stack != [] ==> Path(g, a, p.stack) && Read(p.stack) == p.shifted) &&
    (p.result.Accepted? ==> Sentence(g, p.result.tree, p.shifted))
  }

  /** The tokens are a sentence of the language, with that derivation. */
  ghost predicate Sentence(g: Grammar, t: Tree, tokens: seq<nat>) {
    Derivation(g, t) && Root(g, t) == g.start && Yield(t) == tokens
  }

  lemma {:induction false} StatesInRange(g: Grammar, a: Automaton, es: seq<Entry>, i: nat)
    requires AutomatonOk(g, a) && Path(g, a, es) && i < |es|
    ensures es[i].state < |a.configs|
    ensures i > 0 ==> es[i].state != 0
  {
    if i > 0 {
      assert Step(g, a, es[i - 1], es[i]);
      var x :| x in a.goto[es[i - 1].state] && a.goto[es[i - 1].state][x] == es[i].state;
      assert StateOk(g, a, es[i - 1].state) && GotoOk(g, a, es[i - 1].state, x);
    }
  }

  lemma InState(g: Grammar, a: Automaton, q: nat, c: Config)
    requires AutomatonOk(g, a) && q < |a.configs| && c in a.configs[q]
    ensures ConfigOk(g, c) && (q == 0 ==> c.dot == 0)
  {
    assert StateOk(g, a, q);
  }

  /** A configuration of the top state with its dot past an element came from the state below. */
  lemma OneBelow(g: Grammar, a: Automaton, es: seq<Entry>, c: Config)
    requires AutomatonOk(g, a) && Path(g, a, es) && c.dot > 0
    requires es[|es| - 1].state < |a.configs| && c in a.configs[es[|es| - 1].state]
    ensures |es| > 1 && Path(g, a, es[..|es| - 1])
    ensures var q := es[|es| - 2].state; q < |a.configs| && Config(c.rule, c.dot - 1) in a.configs[q]
    ensures ConfigOk(g, c) && Derivation(g, es[|es| - 1].tree)
    ensures Covers(g.rules[c.rule].rhs[c.dot - 1], Root(g, es[|es| - 1].tree))
  {
    hide Derivation, Covers, AutomatonOk, StateOk, ConfigOk;
    var n := |es| - 1;
    InState(g, a, es[n].state, c);
    assert n > 0 && Step(g, a, es[n - 1], es[n]);
    StatesInRange(g, a, es, n - 1);
    var q := es[n - 1].state;
    var x :| x in a.goto[q] && Covers(x, Root(g, es[n].tree)) && a.goto[q][x] == es[n].state;
    CameFrom(g, a, q, x, c);
  }

  lemma CameFrom(g: Grammar, a: Automaton, q: nat, x: Item, c: Config)
    requires AutomatonOk(g, a) && q < |a.configs| && x in a.goto[q] && a.goto[q][x] < |a.configs|
    requires c in a.configs[a.goto[q][x]] && c.dot > 0
    ensures Config(c.rule, c.dot - 1) in a.configs[q] && Before(g, Config(c.rule, c.dot - 1), x)
  {
    assert StateOk(g, a, q) && GotoOk(g, a, q, x);
  }

  /**
   A configuration of the top state has its elements before the dot on top of the stack, and stands with
   its dot at the start in the state below them.
   */
  lemma {:induction false} HandleOnTop(g: Grammar, a: Automaton, es: seq<Entry>, c: Config)
    requires AutomatonOk(g, a) && es != [] && Path(g, a, es)
    requires es[|es| - 1].state < |a.configs| && c in a.configs[es[|es| - 1].state]
    ensures ConfigOk(g, c) && c.dot < |es|
    ensures var q := es[|es| - 1 - c.dot].state; q < |a.configs| && Config(c.rule, 0) in a.configs[q]
    ensures forall i :: 0 <= i < c.dot ==>
      Covers(g.rules[c.rule].rhs[i], Root(g, es[|es| - c.dot + i].tree)) && Derivation(g, es[|es| - c.dot + i].tree)
    decreases c.dot
  {
    hide Path, StateOk, AutomatonOk, Derivation, Covers;
    var n := |es| - 1;
    InState(g, a, es[n].state, c);
    if c.dot > 0 {
      OneBelow(g, a, es, c);
      var low := es[..n];
      var c' := Config(c.rule, c.dot - 1);
      HandleOnTop(g, a, low, c');
      forall i | 0 <= i < c.dot
        ensures Covers(g.rules[c.rule].rhs[i], Root(g, es[|es| - c.dot + i].tree))
        ensures Derivation(g, es[|es| - c.dot + i].tree)
      {
        if i < c.dot - 1 { assert es[|es| - c.dot + i] == low[|low| - c'.dot + i]; }
      }
    }
  }

  /** Where a rule's configuration starts, its left side can be pushed, or it is the start rule at the bottom. */
  lemma LeftSideGoes(g: Grammar, a: Automaton, q: nat, r: nat)
    requires AutomatonOk(g, a) && q < |a.configs| && r < |g.rules| && Config(r, 0) in a.configs[q]
    ensures One(g.rules[r].lhs) in a.goto[q] || (q == 0 && g.rules[r].lhs == g.start)
  {
    assert StateOk(g, a, q);
    if Waited(g, a.configs[q], r) {
      var c :| c in a.configs[q] && Before(g, c, One(g.rules[r].lhs));
    }
  }

  lemma PushKeepsPath(g: Grammar, a: Automaton, es: seq<Entry>, e: Entry)
    requires Path(g, a, es) && Step(g, a, es[|es| - 1], e)
    ensures Path(g, a, es + [e]) && Read(es + [e]) == Read(es) + Yield(e.tree)
  {
    var fs := es + [e];
    forall i | 0 < i < |fs| ensures Step(g, a, fs[i - 1], fs[i]) {
      if i < |es| { assert Step(g, a, es[i - 1], es[i]); }
    }
    assert Trees(fs[1..]) == Trees(es[1..]) + [e.tree];
    YieldsJoin(Trees(es[1..]), [e.tree]);
    assert Yields([e.tree]) == Yields([]) + Yield(e.tree);
  }

  lemma PopSplits(es: seq<Entry>, m: nat)
    requires 0 < m <= |es|
    ensures Read(es) == Read(es[..m]) + Yields(Trees(es[m..]))
  {
    assert Trees(es[1..]) == Trees(es[..m][1..]) + Trees(es[m..]);
    YieldsJoin(Trees(es[..m][1..]), Trees(es[m..]));
  }

  /** The popped trees are those of the rule's right-hand side. */
  lemma PoppedTree(g: Grammar, a: Automaton, es: seq<Entry>, r: nat)
    requires AutomatonOk(g, a) && es != [] && Path(g, a, es) && r < |g.rules| && es[|es| - 1].state < |a.configs|
    requires Config(r, |g.rules[r].rhs|) in a.configs[es[|es| - 1].state]
    ensures var n := |g.rules[r].rhs|;
      n < |es| && Derivation(g, Branch(r, Trees(es[|es| - n..]))) && es[|es| - n - 1].state < |a.configs| &&
      Config(r, 0) in a.configs[es[|es| - n - 1].state]
  {
    hide AutomatonOk, Path;
    var n := |g.rules[r].rhs|;
    HandleOnTop(g, a, es, Config(r, n));
    var kids := Trees(es[|es| - n..]);
    forall i | 0 <= i < n ensures Covers(g.rules[r].rhs[i], Root(g, kids[i])) && Derivation(g, kids[i]) {
      assert kids[i] == es[|es| - n + i].tree;
    }
  }

  /** A reduction pops exactly the right-hand side, never fails an assertion, and keeps the stack a path. */
  lemma ReduceOk(g: Grammar, a: Automaton, ts: Tables, p: Parser, r: nat, depth: nat)
    requires g.Valid() && TablesOk(g, a, ts) && Good(g, a, p) && p.stack != []
    requires r < |g.rules| && p.stack[|p.stack| - 1].state < |a.configs|
    requires Config(r, |g.rules[r].rhs|) in a.configs[p.stack[|p.stack| - 1].state]
    ensures Good(g, a, Reduce(g, ts, p, r, depth))
  {
    hide AutomatonOk, Path, Step, Read, Derivation;
    var n, es := |g.rules[r].rhs|, p.stack;
    PoppedTree(g, a, es, r);
    var m := |es| - n;
    var below, tree := es[..m], Branch(r, Trees(es[m..]));
    var q, x := below[m - 1].state, g.rules[r].lhs;
    PopSplits(es, m);
    LeftSideGoes(g, a, q, r);
    AutomatonSize(g, a);
    assert GoOk(g, a, q, x, ts.go(q, x));
    LowerPath(g, a, es, m);
    if One(x) in a.goto[q] {
      NoStart(g, a, q, x);
      var e := Entry(a.goto[q][One(x)], tree);
      Stepped(g, a, below[m - 1], e, One(x));
      PushKeepsPath(g, a, below, e);
    } else {
      BottomIsZero(g, a, es, m - 1);
      ReadOne(below);
    }
  }

  lemma AutomatonSize(g: Grammar, a: Automaton)
    requires AutomatonOk(g, a)
    ensures 0 < |a.configs| == |a.goto|
  {}

  lemma Stepped(g: Grammar, a: Automaton, lo: Entry, hi: Entry, x: Item)
    requires lo.state < |a.goto| && Derivation(g, hi.tree) && x in a.goto[lo.state]
    requires Covers(x, Root(g, hi.tree)) && a.goto[lo.state][x] == hi.state
    ensures Step(g, a, lo, hi)
  {}

  lemma ReadOne(es: seq<Entry>)
    requires |es| == 1
    ensures Read(es) == []
  {}

  lemma LowerPath(g: Grammar, a: Automaton, es: seq<Entry>, m: nat)
    requires Path(g, a, es) && 0 < m <= |es|
    ensures Path(g, a, es[..m])
  {}

  lemma BottomIsZero(g: Grammar, a: Automaton, es: seq<Entry>, i: nat)
    requires AutomatonOk(g, a) && Path(g, a, es) && i < |es| && es[i].state == 0
    ensures i == 0
  {
    StatesInRange(g, a, es, i);
  }

  /** The start symbol is on no right-hand side, so it leads nowhere. */
  lemma NoStart(g: Grammar, a: Automaton, q: nat, n: nat)
    requires g.Valid() && AutomatonOk(g, a) && q < |a.configs| && One(n) in a.goto[q]
    ensures n != g.start
  {
    assert StateOk(g, a, q) && GotoOk(g, a, q, One(n));
    var c :| c in a.configs[q] && Before(g, c, One(n));
  }

  lemma TurnOk(g: Grammar, a: Automaton, ts: Tables, p: Parser, t: nat, depth: nat)
    requires g.Valid() && TablesOk(g, a, ts) && Good(g, a, p) && t < g.nterm && (p.stack != [] ==> p.result.Going?)
    ensures var q := Turn(g, ts, p, t, depth); Good(g, a, q) && (q.stack != [] ==> q.result.Going?)
  {
    hide AutomatonOk, Step, Read, Reduce;
    if p.stack != [] && p.waiting {
      var n := |p.stack| - 1;
      var top := p.stack[n];
      StatesInRange(g, a, p.stack, n);
      AutomatonSize(g, a);
      var act := ts.act(top.state, t);
      assert ActOk(g, a, top.state, t, act);
      match act
      case ShiftTo(s) =>
        var x :| x in a.goto[top.state] && Covers(x, t) && a.goto[top.state][x] == s;
        Stepped(g, a, top, Entry(s, Leaf(t)), x);
        PushKeepsPath(g, a, p.stack, Entry(s, Leaf(t)));
      case ReduceBy(r) =>
        ReduceOk(g, a, ts, p, r, depth);
        ReduceGoing(g, ts, p, r, depth);
      case _ =>
    }
  }

  lemma ReduceGoing(g: Grammar, ts: Tables, p: Parser, r: nat, depth: nat)
    ensures Reduce(g, ts, p, r, depth).stack != [] ==> Reduce(g, ts, p, r, depth).result == p.result
  {}

  lemma {:induction false} TurnsOk(g: Grammar, a: Automaton, ts: Tables, p: Parser, t: nat, depth: nat, n: nat)
    requires g.Valid() && TablesOk(g, a, ts) && Good(g, a, p) && t < g.nterm && (p.stack != [] ==> p.result.Going?)
    ensures var q := Turns(g, ts, p, t, depth, n); Good(g, a, q) && (q.stack != [] ==> q.result.Going?)
    decreases n
  {
    hide TablesOk, Good, Turn;
    if n > 0 {
      TurnOk(g, a, ts, p, t, depth);
      TurnsOk(g, a, ts, Turn(g, ts, p, t, depth), t, depth, n - 1);
    }
  }

  lemma BeginOk(g: Grammar, a: Automaton, p: Parser)
    requires Good(g, a, p) && (p.stack != [] ==> p.result.Going?)
    ensures Good(g, a, Begin(p)) && Begin(p).result.Going?
  {
    if p.stack == [] { ReadOne([Entry(0, Leaf(0))]); }
  }

  const Idle := Parser([], false, [], false, Failed)

  /**
   The driver is sound, for every sequence of tokens, however many turns each is given: no assertion fails,
   every stack is a path of the automaton whose trees yield the shifted tokens, and an accepted input is
   derivable from the start symbol.
   */
  lemma {:induction false} DriverSound(g: Grammar, a: Automaton, ts: Tables, tokens: seq<nat>, turns: nat -> nat,
                                       depth: nat)
    requires g.Valid() && TablesOk(g, a, ts) && forall i :: 0 <= i < |tokens| ==> tokens[i] < g.nterm
    ensures var p := Feed(g, ts, Idle, tokens, turns, depth);
      Good(g, a, p) && (p.stack != [] ==> p.result.Going?)
    decreases |tokens|
  {
    hide TablesOk, Good, Turns;
    if tokens == [] {
      IdleGood(g, a);
    } else {
      var n := |tokens| - 1;
      DriverSound(g, a, ts, tokens[..n], turns, depth);
      var q := Feed(g, ts, Idle, tokens[..n], turns, depth);
      BeginOk(g, a, q);
      TurnsOk(g, a, ts, Begin(q), tokens[n], depth, turns(n));
    }
  }

  lemma IdleGood(g: Grammar, a: Automaton)
    ensures Good(g, a, Idle)
  {}

  // ----- the accepted input -----

  /** Turns without a syntax error add the token to the shifted ones when they use it up, and only then. */
  lemma {:induction false} TurnsConsume(g: Grammar, ts: Tables, p: Parser, t: nat, depth: nat, n: nat)
    requires p.stack != [] && p.waiting && p.result.Going?
    ensures var q := Turns(g, ts, p, t, depth, n);
      !q.errors && (q.stack != [] || q.result.Accepted?) ==>
        !p.errors && q.shifted == p.shifted + if q.waiting then [] else [t]
    decreases n
  {
    hide Reduce;
    if n > 0 {
      var p1 := Turn(g, ts, p, t, depth);
      var act := ts.act(p.stack[|p.stack| - 1].state, t);
      if act.ReduceBy? {
        ReduceGoing(g, ts, p, act.rule, depth);
        ReduceShifts(g, ts, p, act.rule, depth);
      }
      if p1.stack != [] && p1.waiting {
        TurnsConsume(g, ts, p1, t, depth, n - 1);
      } else {
        TurnsIdle(g, ts, p1, t, depth, n - 1);
      }
    }
  }

  lemma ReduceShifts(g: Grammar, ts: Tables, p: Parser, r: nat, depth: nat)
    ensures var q := Reduce(g, ts, p, r, depth);
      q.shifted == p.shifted && q.waiting == p.waiting && q.errors == p.errors
  {}

  lemma {:induction false} TurnsIdle(g: Grammar, ts: Tables, p: Parser, t: nat, depth: nat, n: nat)
    requires p.stack == [] || !p.waiting
    ensures Turns(g, ts, p, t, depth, n) == p
    decreases n
  {
    if n > 0 { TurnsIdle(g, ts, p, t, depth, n - 1); }
  }

  /** The parser is running after the first `k` tokens, has used them up, and has met no syntax error. */
  ghost predicate Fed(g: Grammar, ts: Tables, tokens: seq<nat>, turns: nat -> nat, depth: nat, k: nat)
    requires k <= |tokens|
  {
    var p := Feed(g, ts, Idle, tokens[..k], turns, depth);
    p.stack != [] && !p.waiting && !p.errors
  }

  lemma {:induction false} FedShifted(g: Grammar, a: Automaton, ts: Tables, tokens: seq<nat>, turns: nat -> nat,
                                      depth: nat, k: nat)
    requires g.Valid() && TablesOk(g, a, ts) && forall i :: 0 <= i < |tokens| ==> tokens[i] < g.nterm
    requires k <= |tokens| && forall i :: 0 < i <= k ==> Fed(g, ts, tokens, turns, depth, i)
    ensures k > 0 ==> Feed(g, ts, Idle, tokens[..k], turns, depth).shifted == tokens[..k]
    decreases k
  {
    hide TablesOk, Turns;
    if k > 0 {
      FedShifted(g, a, ts, tokens, turns, depth, k - 1);
      assert tokens[..k][..k - 1] == tokens[..k - 1];
      assert Fed(g, ts, tokens, turns, depth, k);
      var p := Feed(g, ts, Idle, tokens[..k - 1], turns, depth);
      DriverSound(g, a, ts, tokens[..k - 1], turns, depth);
      TurnsConsume(g, ts, Begin(p), tokens[k - 1], depth, turns(k - 1));
      if k > 1 { assert Fed(g, ts, tokens, turns, depth, k - 1); }
    }
  }

  /** Accepted without a syntax error, the input up to its last token is a sentence of the language. */
  lemma AcceptedIsSentence(g: Grammar, a: Automaton, ts: Tables, tokens: seq<nat>, turns: nat -> nat, depth: nat)
    requires g.Valid() && TablesOk(g, a, ts) && forall i :: 0 <= i < |tokens| ==> tokens[i] < g.nterm
    requires tokens != [] && forall i :: 0 < i < |tokens| ==> Fed(g, ts, tokens, turns, depth, i)
    requires var p := Feed(g, ts, Idle, tokens, turns, depth); p.result.Accepted? && !p.errors
    ensures Sentence(g, Feed(g, ts, Idle, tokens, turns, depth).result.tree, tokens[..|tokens| - 1])
  {
    hide TablesOk, Turns;
    var k := |tokens| - 1;
    var p := Feed(g, ts, Idle, tokens[..k], turns, depth);
    var q := Feed(g, ts, Idle, tokens, turns, depth);
    DriverSound(g, a, ts, tokens, turns, depth);
    DriverSound(g, a, ts, tokens[..k], turns, depth);
    FedShifted(g, a, ts, tokens, turns, depth, k);
    if k > 0 { assert Fed(g, ts, tokens, turns, depth, k); }
    TurnsConsume(g, ts, Begin(p), tokens[k], depth, turns(k));
    AcceptedWaits(g, ts, Begin(p), tokens[k], depth, turns(k));
  }

  lemma {:induction false} AcceptedWaits(g: Grammar, ts: Tables, p: Parser, t: nat, depth: nat, n: nat)
    requires p.stack != [] && p.waiting && p.result.Going?
    ensures var q := Turns(g, ts, p, t, depth, n); q.result.Accepted? ==> q.waiting
    decreases n
  {
    hide Reduce;
    if n > 0 {
      var p1 := Turn(g, ts, p, t, depth);
      var act := ts.act(p.stack[|p.stack| - 1].state, t);
      if act.ReduceBy? {
        ReduceGoing(g, ts, p, act.rule, depth);
        ReduceShifts(g, ts, p, act.rule, depth);
      }
      if p1.stack != [] && p1.waiting {
        AcceptedWaits(g, ts, p1, t, depth, n - 1);
      } else {
        TurnsIdle(g, ts, p1, t, depth, n - 1);
      }
    }
  }
}
