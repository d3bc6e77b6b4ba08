/**
 The other half of correctness: a generated parser whose tables give up no action for another accepts every sentence
 of the grammar, and builds its derivation tree. So such a grammar has one tree for every sentence.
 */
module LrCompleteness {
  import opened Grammars
  import opened LrDriver
  import opened LrActions
  import opened LrCompress
  import opened ActionTable
  import opened LrTables
  import opened LrGenerator
  import opened LrRefinement
  import opened LrLookahead
  import opened LrAcceptance
  import opened MergeSort
  import FirstSets
  import Lr0

  // ----- what the tables must answer -----

  /** By rule `r` state `q` should reduce on token `t`. */
  ghost predicate ReduceAsked(g: Grammar, a: Automaton, q: nat, r: nat, t: nat)
    requires q < |a.configs|
  {
    r < |g.rules| && t < g.nterm && Config(r, |g.rules[r].rhs|) in a.configs[q] &&
    Lookahead(g, a, Place(q, Config(r, |g.rules[r].rhs|)), t)
  }

  /** The row of state `q`, under its number, has every shift, reduction and transition the automaton asks for. */
  ghost predicate AnswersAt(g: Grammar, a: Automaton, num: nat -> nat, ts: Tables, q: nat)
    requires q < |a.configs| == |a.goto|
  {
    (forall x, t: nat :: x in a.goto[q] && Covers(x, t) && t < g.nterm ==>
       ts.act(num(q), t) == ShiftTo(num(a.goto[q][x]))) &&
    (forall r: nat, t: nat :: ReduceAsked(g, a, q, r, t) ==> ts.act(num(q), t) == ReduceBy(r)) &&
    (forall n :: g.nterm <= n < g.nsym && One(n) in a.goto[q] ==>
       ts.go(num(q), n) == ShiftTo(num(a.goto[q][One(n)]))) &&
    (q == 0 ==> ts.go(num(q), g.start) == Accept)
  }

  ghost predicate Answers(g: Grammar, a: Automaton, num: nat -> nat, ts: Tables) {
    |a.configs| == |a.goto| && num(0) == 0 && (forall r :: 0 <= r < |g.rules| ==> ts.len(r) == |g.rules[r].rhs|) &&
    forall q :: 0 <= q < |a.configs| ==> AnswersAt(g, a, num, ts, q)
  }

  /** The dot of every configuration can move on, every awaited rule is there, and state 0 has the start rules. */
  ghost predicate Full(g: Grammar, a: Automaton) {
    AutomatonOk(g, a) && (forall q :: 0 <= q < |a.configs| ==> FullAt(g, a, q)) &&
    forall r :: 0 <= r < |g.rules| && g.rules[r].lhs == g.start ==> Config(r, 0) in a.configs[0]
  }

  ghost predicate FullAt(g: Grammar, a: Automaton, q: nat)
    requires q < |a.configs| == |a.goto|
  {
    Lr0.Closed(g, a.configs[q]) &&
    forall c, x :: c in a.configs[q] && Before(g, c, x) ==>
      x in a.goto[q] && a.goto[q][x] < |a.configs| && Config(c.rule, c.dot + 1) in a.configs[a.goto[q][x]]
  }

  // ----- a driver that takes token after token -----

  datatype Reading = Reading(p: Parser, rest: seq<nat>)

  /** One turn on the next token; the token after it comes when this one is used up. */
  function Move(g: Grammar, ts: Tables, s: Reading, depth: nat): Reading {
    if s.p.stack == [] || s.rest == [] then s
    else
      var q := Turn(g, ts, s.p, s.rest[0], depth);
      if q.waiting then Reading(q, s.rest) else Reading(q.(waiting := true), s.rest[1..])
  }

  function Moves(g: Grammar, ts: Tables, s: Reading, depth: nat, n: nat): Reading
    decreases n
  {
    if n == 0 then s else Moves(g, ts, Move(g, ts, s, depth), depth, n - 1)
  }

  lemma {:induction false} MovesJoin(g: Grammar, ts: Tables, s: Reading, depth: nat, n: nat, m: nat)
    ensures Moves(g, ts, Moves(g, ts, s, depth, n), depth, m) == Moves(g, ts, s, depth, n + m)
    decreases n
  {
    hide Move;
    if n > 0 { MovesJoin(g, ts, Move(g, ts, s, depth), depth, n - 1, m); }
  }

  /** The parser after pushing `es` and shifting the tokens `u`. */
  function After(p: Parser, es: seq<Entry>, u: seq<nat>): Parser {
    p.(stack := p.stack + es, shifted := p.shifted + u)
  }

  /** The nodes of a tree, which is how many turns it takes. */
  function Nodes(t: Tree): nat
    decreases t, 0
  {
    match t
    case Leaf(_) => 1
    case Branch(_, kids) => AllNodes(kids) + 1
  }

  function AllNodes(ts: seq<Tree>): nat
    decreases ts, 1
  {
    if ts == [] then 0 else AllNodes(ts[..|ts| - 1]) + Nodes(ts[|ts| - 1])
  }

  /** How many entries a tree takes on the stack while it is built. */
  function Room(t: Tree): (n: nat)
    ensures n > 0
    decreases t, 0
  {
    match t
    case Leaf(_) => 1
    case Branch(_, kids) => if Rooms(kids) == 0 then 1 else Rooms(kids)
  }

  function Rooms(ts: seq<Tree>): nat
    decreases ts, 1
  {
    if ts == [] then 0
    else
      var n := |ts| - 1;
      if Rooms(ts[..n]) > n + Room(ts[n]) then Rooms(ts[..n]) else n + Room(ts[n])
  }

  lemma {:induction false} RoomAt(ts: seq<Tree>, i: nat)
    requires i < |ts|
    ensures i + Room(ts[i]) <= Rooms(ts)
    decreases |ts|
  {
    var n := |ts| - 1;
    if i < n { RoomAt(ts[..n], i); }
  }

  ghost predicate Tokens(g: Grammar, u: seq<nat>) { forall i :: 0 <= i < |u| ==> u[i] < g.nterm }

  lemma {:induction false} KidTokens(g: Grammar, ts: seq<Tree>, i: nat)
    requires i < |ts| && Tokens(g, Yields(ts))
    ensures Tokens(g, Yield(ts[i]))
    decreases |ts|
  {
    var n := |ts| - 1;
    var u := Yields(ts[..n]);
    assert Yields(ts)[..|u|] == u && Yields(ts)[|u|..] == Yield(ts[n]);
    if i < n { KidTokens(g, ts[..n], i); }
  }

  // ----- one shift, one reduction -----

  ghost predicate Ready(a: Automaton, num: nat -> nat, p: Parser, q: nat) {
    p.stack != [] && p.waiting && q < |a.configs| && p.stack[|p.stack| - 1].state == num(q)
  }

  lemma LeafMoves(g: Grammar, a: Automaton, num: nat -> nat, ts: Tables, p: Parser, t: nat, z: seq<nat>, q: nat,
                  x: Item, depth: nat)
    requires Answers(g, a, num, ts) && Ready(a, num, p, q) && x in a.goto[q] && Covers(x, t) && 0 < t < g.nterm
    requires |p.stack| < depth
    ensures Moves(g, ts, Reading(p, [t] + z), depth, 1) ==
            Reading(After(p, [Entry(num(a.goto[q][x]), Leaf(t))], [t]), z)
  {
    hide ReduceAsked, Covers;
    assert AnswersAt(g, a, num, ts, q);
    var s := Reading(p, [t] + z);
    assert s.rest[1..] == z;
    assert Moves(g, ts, s, depth, 1) == Moves(g, ts, Move(g, ts, s, depth), depth, 0);
  }

  lemma ReduceMoves(g: Grammar, ts: Tables, p: Parser, es: seq<Entry>, r: nat, u: seq<nat>, z: seq<nat>, depth: nat)
    requires p.stack != [] && p.waiting && r < |g.rules| && |es| == ts.len(r) && z != []
    requires ts.act((p.stack + es)[|p.stack + es| - 1].state, z[0]) == ReduceBy(r)
    ensures Moves(g, ts, Reading(After(p, es, u), z), depth, 1) ==
            Reading(Reduce(g, ts, After(p, es, u), r, depth), z)
    ensures var act, q := ts.go(p.stack[|p.stack| - 1].state, g.rules[r].lhs), After(p, [], u);
      (act.ShiftTo? ==> Reduce(g, ts, After(p, es, u), r, depth) ==
                        Push(q, Entry(act.state, Branch(r, Trees(es))), depth)) &&
      (act.Accept? ==> Reduce(g, ts, After(p, es, u), r, depth) ==
                       q.(stack := [], result := Accepted(Branch(r, Trees(es)))))
  {
    hide Trees;
    hide Trees, Push;
    ReduceShifts(g, ts, After(p, es, u), r, depth);
    var all := p.stack + es;
    assert all[..|p.stack|] == p.stack && all[|p.stack|..] == es && p.stack + [] == p.stack;
    var s := Reading(After(p, es, u), z);
    assert Moves(g, ts, s, depth, 1) == Moves(g, ts, Move(g, ts, s, depth), depth, 0);
  }

  // ----- what follows -----

  /** A token that can come after the element behind the dot of `p`. */
  ghost predicate Follows(g: Grammar, a: Automaton, p: Place, t: nat)
    requires ConfigOk(g, p.config)
  {
    var r, i := p.config.rule, p.config.dot + 1;
    BeginsWithin(g, r, i, |g.rules[r].rhs|, t) || (Vanish(g, r, i, |g.rules[r].rhs|) && Lookahead(g, a, p, t))
  }

  /** What can follow the awaited nonterminal is a lookahead of its rules. */
  lemma OpenedAhead(g: Grammar, a: Automaton, q: nat, c: Config, r: nat, t: nat)
    requires g.Valid() && q < |a.configs| && c in a.configs[q] && ConfigOk(g, c) && r < |g.rules| && t < g.nterm
    requires Before(g, c, One(g.rules[r].lhs)) && Config(r, 0) in a.configs[q] && Follows(g, a, Place(q, c), t)
    ensures Lookahead(g, a, Place(q, Config(r, 0)), t)
  {
    hide BeginsWithin, Vanish, Lookahead;
    var p, o := Place(q, c), Place(q, Config(r, 0));
    assert Opens(g, p, o) && InStates(a, p) && InStates(a, o);
    if BeginsWithin(g, c.rule, c.dot + 1, |g.rules[c.rule].rhs|, t) {
      assert Generates(g, p, o, t);
      GeneratedAhead(g, a, o, t);
    } else {
      assert PassesDown(g, p, o);
      PassedAhead(g, a, p, o);
      assert t in Ahead(g, a, p);
    }
  }

  lemma MovedAhead(g: Grammar, a: Automaton, q: nat, c: Config, t: nat)
    requires Full(g, a) && q < |a.configs| && c in a.configs[q] && ConfigOk(g, c) && c.dot < |g.rules[c.rule].rhs|
    requires t < g.nterm && Lookahead(g, a, Place(q, c), t)
    ensures var x := g.rules[c.rule].rhs[c.dot];
      x in a.goto[q] && a.goto[q][x] < |a.configs| && Config(c.rule, c.dot + 1) in a.configs[a.goto[q][x]] &&
      Lookahead(g, a, Place(a.goto[q][x], Config(c.rule, c.dot + 1)), t)
  {
    hide Lookahead, AutomatonOk;
    var x := g.rules[c.rule].rhs[c.dot];
    AutomatonSize(g, a);
    assert Before(g, c, x) && FullAt(g, a, q);
    var o := Place(a.goto[q][x], Config(c.rule, c.dot + 1));
    assert PassesOn(g, a, Place(q, c), o);
    PassedAhead(g, a, Place(q, c), o);
    assert t in Ahead(g, a, Place(q, c));
  }

  lemma AllVanish(g: Grammar, r: nat, kids: seq<Tree>, i: nat, k: nat)
    requires g.Valid() && Derivation(g, Branch(r, kids)) && i <= k <= |kids|
    requires forall j :: i <= j < k ==> Yield(kids[j]) == []
    ensures Vanish(g, r, i, k)
  {
    var rhs := g.rules[r].rhs;
    forall j | i <= j < k ensures CanVanish(g, rhs[j]) {
      assert Covers(rhs[j], Root(g, kids[j])) && Derivation(g, kids[j]);
      assert kids[j].Branch? && g.ItemOk(rhs[j]);
      assert Root(g, kids[j]) >= g.nterm;
      assert FirstSets.Nullable(g, Root(g, kids[j]));
    }
  }

  /** The token behind a child: the first of the next child that yields any, or what comes behind the whole. */
  lemma KidFollowed(g: Grammar, a: Automaton, r: nat, kids: seq<Tree>, i: nat, q: nat, z: seq<nat>)
    requires g.Valid() && Derivation(g, Branch(r, kids)) && i < |kids| && Tokens(g, Yields(kids))
    requires z != [] && Lookahead(g, a, Place(q, Config(r, i)), z[0])
    ensures var y := Yields(kids[i + 1..]) + z; Follows(g, a, Place(q, Config(r, i)), y[0])
  {
    hide Lookahead, Covers, Yields, Yield;
    var us := kids[i + 1..];
    if Yields(us) == [] {
      forall j | i + 1 <= j < |kids| ensures Yield(kids[j]) == [] {
        FirstSets.EachYieldsNothing(us, j - i - 1);
        assert us[j - i - 1] == kids[j];
      }
      AllVanish(g, r, kids, i + 1, |kids|);
    } else {
      var k := FirstSets.FirstYield(us);
      forall j | i + 1 <= j < i + 1 + k ensures Yield(kids[j]) == [] { assert us[j - i - 1] == kids[j]; }
      AllVanish(g, r, kids, i + 1, i + 1 + k);
      assert us[k] == kids[i + 1 + k];
      KidTokens(g, kids, i + 1 + k);
      KidBegins(g, r, kids, i + 1 + k);
      assert BeginsWithin(g, r, i + 1, |g.rules[r].rhs|, Yields(us)[0]);
    }
  }

  lemma KidBegins(g: Grammar, r: nat, kids: seq<Tree>, k: nat)
    requires g.Valid() && Derivation(g, Branch(r, kids)) && k < |kids| && Yield(kids[k]) != []
    requires Tokens(g, Yield(kids[k]))
    ensures CanBegin(g, g.rules[r].rhs[k], Yield(kids[k])[0])
  {
    var x, t := g.rules[r].rhs[k], kids[k];
    assert Covers(x, Root(g, t)) && Derivation(g, t) && g.ItemOk(x);
    if x.One? {
      assert FirstSets.Begins(g, x.sym, Yield(t)[0]);
    }
  }

  // ----- whole trees -----

  /** Reading what a tree yields puts that tree on the stack. */
  lemma {:induction false} TreeMoves(g: Grammar, a: Automaton, num: nat -> nat, ts: Tables, p: Parser, t: Tree,
                                     z: seq<nat>, q: nat, c: Config, x: Item, depth: nat)
    requires g.Valid() && Full(g, a) && Answers(g, a, num, ts) && Ready(a, num, p, q)
    requires c in a.configs[q] && ConfigOk(g, c) && Before(g, c, x) && Derivation(g, t) && Covers(x, Root(g, t))
    requires Tokens(g, Yield(t)) && z != [] && z[0] < g.nterm && Follows(g, a, Place(q, c), z[0])
    requires |p.stack| + Room(t) <= depth
    ensures x in a.goto[q]
    ensures Moves(g, ts, Reading(p, Yield(t) + z), depth, Nodes(t)) ==
            Reading(After(p, [Entry(num(a.goto[q][x]), t)], Yield(t)), z)
    decreases t, 0, 0
  {
    hide Follows, Lookahead, AutomatonOk, Reduce, Push, Moves, AnswersAt;
    assert FullAt(g, a, q);
    assert g.ItemOk(x);
    match t
    case Leaf(s) =>
      assert Yield(t) == [s] && Yield(t)[0] < g.nterm;
      LeafMoves(g, a, num, ts, p, s, z, q, x, depth);
    case Branch(r, kids) =>
      OneItem(g, x, r);
      assert Config(r, 0) in a.configs[q];
      OpenedAhead(g, a, q, c, r, z[0]);
      var es, q' := KidsMove(g, a, num, ts, p, r, kids, |kids|, z, q, depth);
      BranchMoves(g, a, num, ts, p, r, kids, es, z, q, q', depth);
  }

  lemma OneItem(g: Grammar, x: Item, r: nat)
    requires g.Valid() && r < |g.rules| && g.ItemOk(x) && Covers(x, g.rules[r].lhs)
    ensures x == One(g.rules[r].lhs) && g.nterm <= g.rules[r].lhs < g.nsym
  {}

  /** The reduction that ends a tree. */
  lemma BranchMoves(g: Grammar, a: Automaton, num: nat -> nat, ts: Tables, p: Parser, r: nat, kids: seq<Tree>,
                    es: seq<Entry>, z: seq<nat>, q: nat, q': nat, depth: nat)
    requires Answers(g, a, num, ts) && Ready(a, num, p, q) && Derivation(g, Branch(r, kids))
    requires g.nterm <= g.rules[r].lhs < g.nsym && One(g.rules[r].lhs) in a.goto[q]
    requires z != [] && z[0] < g.nterm && |p.stack| < depth && Trees(es) == kids
    requires Ready(a, num, After(p, es, Yields(kids)), q') && ReduceAsked(g, a, q', r, z[0])
    requires Moves(g, ts, Reading(p, Yields(kids) + z), depth, AllNodes(kids)) ==
             Reading(After(p, es, Yields(kids)), z)
    ensures var t := Branch(r, kids);
      Moves(g, ts, Reading(p, Yield(t) + z), depth, Nodes(t)) ==
      Reading(After(p, [Entry(num(a.goto[q][One(g.rules[r].lhs)]), t)], Yield(t)), z)
  {
    hide ReduceAsked, Moves, Reduce, Trees;
    assert AnswersAt(g, a, num, ts, q) && AnswersAt(g, a, num, ts, q');
    ReduceMoves(g, ts, p, es, r, Yields(kids), z, depth);
    MovesJoin(g, ts, Reading(p, Yields(kids) + z), depth, AllNodes(kids), 1);
    assert p.stack + [] == p.stack;
  }

  /** Reading what the first `i` children yield puts them on the stack, and moves the dot past their elements. */
  lemma {:induction false} KidsMove(g: Grammar, a: Automaton, num: nat -> nat, ts: Tables, p: Parser, r: nat,
                                    kids: seq<Tree>, i: nat, z: seq<nat>, q: nat, depth: nat)
    returns (es: seq<Entry>, q': nat)
    requires g.Valid() && Full(g, a) && Answers(g, a, num, ts) && Ready(a, num, p, q)
    requires Derivation(g, Branch(r, kids)) && i <= |kids| && Config(r, 0) in a.configs[q]
    requires Tokens(g, Yields(kids)) && z != [] && z[0] < g.nterm
    requires Lookahead(g, a, Place(q, Config(r, 0)), z[0]) && |p.stack| + Rooms(kids) <= depth
    ensures Trees(es) == kids[..i] && Ready(a, num, After(p, es, Yields(kids[..i])), q')
    ensures Config(r, i) in a.configs[q'] && Lookahead(g, a, Place(q', Config(r, i)), z[0])
    ensures Moves(g, ts, Reading(p, Yields(kids) + z), depth, AllNodes(kids[..i])) ==
            Reading(After(p, es, Yields(kids[..i])), Yields(kids[i..]) + z)
    decreases kids, 1, i
  {
    hide Follows, Lookahead, Full, Answers, Moves, Derivation, Rooms, Room, Grammar.Valid, AllNodes, Nodes, Yields,
         Yield, Trees;
    if i == 0 {
      es, q' := [], q;
      NoKids(g, ts, p, kids, z, depth);
      assert p.stack + es == p.stack;
    } else {
      var fs, o := KidsMove(g, a, num, ts, p, r, kids, i - 1, z, q, depth);
      RuleOf(g, r, kids);
      FullSize(g, a);
      var t, c, x := kids[i - 1], Config(r, i - 1), g.rules[r].rhs[i - 1];
      var p1, y := After(p, fs, Yields(kids[..i - 1])), Yields(kids[i..]) + z;
      KidTokens(g, kids, i - 1);
      KidOk(g, r, kids, i - 1);
      KidFollowed(g, a, r, kids, i - 1, o, z);
      RestTokens(g, kids, i);
      RoomAt(kids, i - 1);
      MovedAhead(g, a, o, c, z[0]);
      TreeMoves(g, a, num, ts, p1, t, y, o, c, x, depth);
      q' := a.goto[o][x];
      es := fs + [Entry(num(q'), t)];
      JoinKids(g, ts, p, p1, kids, i, fs, Entry(num(q'), t), z, depth);
      assert kids[..i] == kids[..i - 1] + [t];
      assert Trees(es) == Trees(fs) + [t];
    }
  }

  lemma NoKids(g: Grammar, ts: Tables, p: Parser, kids: seq<Tree>, z: seq<nat>, depth: nat)
    ensures Moves(g, ts, Reading(p, Yields(kids) + z), depth, AllNodes(kids[..0])) ==
            Reading(After(p, [], Yields(kids[..0])), Yields(kids[0..]) + z)
  {
    assert kids[0..] == kids && p.stack + [] == p.stack && p.shifted + [] == p.shifted;
  }

  lemma FullSize(g: Grammar, a: Automaton)
    requires Full(g, a)
    ensures 0 < |a.configs| == |a.goto|
  {}

  lemma RuleOf(g: Grammar, r: nat, kids: seq<Tree>)
    requires Derivation(g, Branch(r, kids))
    ensures r < |g.rules| && |kids| == |g.rules[r].rhs|
  {}

  lemma KidOk(g: Grammar, r: nat, kids: seq<Tree>, i: nat)
    requires Derivation(g, Branch(r, kids)) && i < |kids|
    ensures Covers(g.rules[r].rhs[i], Root(g, kids[i])) && Derivation(g, kids[i])
  {}

  lemma RestTokens(g: Grammar, kids: seq<Tree>, i: nat)
    requires i <= |kids| && Tokens(g, Yields(kids))
    ensures Tokens(g, Yields(kids[i..]))
  {
    YieldsJoin(kids[..i], kids[i..]);
    assert kids == kids[..i] + kids[i..];
    var u := Yields(kids[..i]);
    assert Yields(kids)[|u|..] == Yields(kids[i..]);
  }

  /** The moves of one more child come behind those of the children before it. */
  lemma JoinKids(g: Grammar, ts: Tables, p: Parser, p1: Parser, kids: seq<Tree>, i: nat, fs: seq<Entry>, e: Entry,
                 z: seq<nat>, depth: nat)
    requires 0 < i <= |kids| && p1 == After(p, fs, Yields(kids[..i - 1]))
    requires Moves(g, ts, Reading(p, Yields(kids) + z), depth, AllNodes(kids[..i - 1])) ==
             Reading(p1, Yields(kids[i - 1..]) + z)
    requires Moves(g, ts, Reading(p1, Yield(kids[i - 1]) + (Yields(kids[i..]) + z)), depth, Nodes(kids[i - 1])) ==
             Reading(After(p1, [e], Yield(kids[i - 1])), Yields(kids[i..]) + z)
    ensures Moves(g, ts, Reading(p, Yields(kids) + z), depth, AllNodes(kids[..i])) ==
            Reading(After(p, fs + [e], Yields(kids[..i])), Yields(kids[i..]) + z)
  {
    hide Moves, Yields, Yield, AllNodes, Nodes;
    var t := kids[i - 1];
    KidSplit(kids, i);
    assert Yields(kids[i - 1..]) + z == Yield(t) + (Yields(kids[i..]) + z);
    MovesJoin(g, ts, Reading(p, Yields(kids) + z), depth, AllNodes(kids[..i - 1]), Nodes(t));
    assert p.stack + (fs + [e]) == (p.stack + fs) + [e];
  }

  lemma KidSplit(kids: seq<Tree>, i: nat)
    requires 0 < i <= |kids|
    ensures Yields(kids[i - 1..]) == Yield(kids[i - 1]) + Yields(kids[i..])
    ensures Yields(kids[..i]) == Yields(kids[..i - 1]) + Yield(kids[i - 1])
    ensures AllNodes(kids[..i]) == AllNodes(kids[..i - 1]) + Nodes(kids[i - 1])
  {
    var t := kids[i - 1];
    YieldsJoin([t], kids[i..]);
    assert kids[i - 1..] == [t] + kids[i..];
    assert Yields([t]) == Yields([]) + Yield(t) == Yield(t);
    assert kids[..i][..i - 1] == kids[..i - 1] && kids[..i][i - 1] == t;
  }

  // ----- sentences -----

  const Begun := Parser([Entry(0, Leaf(0))], true, [], false, Going)

  /** A whole sentence with the end of the input behind it is accepted with its tree. */
  lemma SentenceMoves(g: Grammar, a: Automaton, num: nat -> nat, ts: Tables, t: Tree, depth: nat)
    requires g.Valid() && Full(g, a) && Answers(g, a, num, ts) && Derivation(g, t) && Root(g, t) == g.start
    requires Tokens(g, Yield(t)) && Room(t) < depth
    ensures var s := Moves(g, ts, Reading(Begun, Yield(t) + [0]), depth, Nodes(t));
      s.rest == [0] && s.p == Parser([], true, Yield(t), false, Accepted(t))
  {
    hide AutomatonOk, Lookahead, Reduce, Moves, FullAt, AnswersAt;
    NotJustStart(g, t);
    var r, kids := t.rule, t.kids;
    AutomatonSize(g, a);
    AtStart(g, a, r);
    assert Ready(a, num, Begun, 0);
    var es, q := KidsMove(g, a, num, ts, Begun, r, kids, |kids|, [0], 0, depth);
    assert kids[..|kids|] == kids && kids[|kids|..] == [];
    assert Yields(kids[|kids|..]) + [0] == [0];
    StartReduced(g, a, num, ts, r, kids, es, q, depth);
  }

  lemma NotJustStart(g: Grammar, t: Tree)
    requires g.Valid() && Root(g, t) == g.start && Tokens(g, Yield(t))
    ensures t.Branch?
  {
    assert t == Leaf(g.start) ==> Yield(t)[0] >= g.nterm;
  }

  lemma AtStart(g: Grammar, a: Automaton, r: nat)
    requires g.Valid() && Full(g, a) && r < |g.rules| && g.rules[r].lhs == g.start && 0 < |a.configs|
    ensures Config(r, 0) in a.configs[0] && Lookahead(g, a, Place(0, Config(r, 0)), 0)
  {
    hide Lookahead, AutomatonOk;
    GeneratedAhead(g, a, Place(0, Config(r, 0)), 0);
  }

  lemma StartReduced(g: Grammar, a: Automaton, num: nat -> nat, ts: Tables, r: nat, kids: seq<Tree>, es: seq<Entry>,
                     q: nat, depth: nat)
    requires Answers(g, a, num, ts) && Derivation(g, Branch(r, kids)) && 0 < |a.configs| && 0 < g.nterm
    requires g.rules[r].lhs == g.start && Trees(es) == kids
    requires Ready(a, num, After(Begun, es, Yields(kids)), q) && Config(r, |kids|) in a.configs[q]
    requires Lookahead(g, a, Place(q, Config(r, |kids|)), 0)
    requires Moves(g, ts, Reading(Begun, Yields(kids) + [0]), depth, AllNodes(kids)) ==
             Reading(After(Begun, es, Yields(kids)), [0])
    ensures var t := Branch(r, kids); var s := Moves(g, ts, Reading(Begun, Yield(t) + [0]), depth, Nodes(t));
      s.rest == [0] && s.p == Parser([], true, Yield(t), false, Accepted(t))
  {
    hide Moves, Lookahead, Reduce;
    assert AnswersAt(g, a, num, ts, 0) && AnswersAt(g, a, num, ts, q);
    assert ReduceAsked(g, a, q, r, 0);
    ReduceMoves(g, ts, Begun, es, r, Yields(kids), [0], depth);
    MovesJoin(g, ts, Reading(Begun, Yields(kids) + [0]), depth, AllNodes(kids), 1);
  }

  // ----- from moves to tokens with their turns -----

  lemma {:induction false} MovesStay(g: Grammar, ts: Tables, s: Reading, depth: nat, n: nat)
    requires s.p.stack == [] || s.rest == []
    ensures Moves(g, ts, s, depth, n) == s
    decreases n
  {
    if n > 0 { MovesStay(g, ts, s, depth, n - 1); }
  }

  /** A syntax error is not forgotten. */
  lemma {:induction false} MovesRemember(g: Grammar, ts: Tables, s: Reading, depth: nat, n: nat)
    requires s.p.errors
    ensures Moves(g, ts, s, depth, n).p.errors
    decreases n
  {
    hide Reduce;
    if n > 0 {
      if s.p.stack != [] && s.rest != [] {
        var act := ts.act(s.p.stack[|s.p.stack| - 1].state, s.rest[0]);
        if act.ReduceBy? { ReduceShifts(g, ts, s.p, act.rule, depth); }
      }
      MovesRemember(g, ts, Move(g, ts, s, depth), depth, n - 1);
    }
  }

  /**
   The moves of a run that ends: the turns on the first token are the first of them. Either that token ends the run, or
   it is used up and the rest of the run is made with the tokens behind it.
   */
  lemma {:induction false} OneToken(g: Grammar, ts: Tables, p: Parser, rest: seq<nat>, depth: nat, m: nat, n: nat)
    returns (k: nat)
    requires p.stack != [] && p.waiting && p.result.Going? && rest != [] && m <= n
    requires Moves(g, ts, Reading(p, rest), depth, m).p.stack == []
    ensures var q, s := Turns(g, ts, p, rest[0], depth, n), Moves(g, ts, Reading(p, rest), depth, m);
      if q.stack == [] then s.p == q.(waiting := true) && s.rest == if q.waiting then rest else rest[1..]
      else k <= m && !q.waiting && q.result.Going? &&
           s == Moves(g, ts, Reading(q.(waiting := true), rest[1..]), depth, k)
    decreases m
  {
    hide Reduce;
    var p1, s1 := Turn(g, ts, p, rest[0], depth), Move(g, ts, Reading(p, rest), depth);
    var act := ts.act(p.stack[|p.stack| - 1].state, rest[0]);
    if act.ReduceBy? {
      ReduceGoing(g, ts, p, act.rule, depth);
      ReduceShifts(g, ts, p, act.rule, depth);
    }
    if p1.stack != [] && p1.waiting {
      k := OneToken(g, ts, p1, rest, depth, m - 1, n - 1);
    } else {
      k := m - 1;
      TurnsIdle(g, ts, p1, rest[0], depth, n - 1);
      if p1.stack == [] { MovesStay(g, ts, s1, depth, m - 1); }
    }
  }

  /** Every token is used up without a syntax error, and the last one accepts. */
  ghost predicate Accepts(g: Grammar, ts: Tables, tokens: seq<nat>, turns: nat -> nat, depth: nat) {
    Feed(g, ts, Idle, tokens, turns, depth).result.Accepted? && !Feed(g, ts, Idle, tokens, turns, depth).errors &&
    forall i :: 0 < i < |tokens| ==> Fed(g, ts, tokens, turns, depth, i)
  }

  /** Where each token has as many turns as the whole run takes, feeding the tokens makes the same moves. */
  lemma {:induction false} FeedMoves(g: Grammar, ts: Tables, tokens: seq<nat>, turns: nat -> nat, depth: nat, m: nat,
                                     k: nat, s: Reading)
    requires k < |tokens| && forall i :: 0 <= i < |tokens| ==> m <= turns(i)
    requires s.p.stack == [] && s.p.result.Accepted? && !s.p.errors && |s.rest| == 1
    requires var p := Begin(Feed(g, ts, Idle, tokens[..k], turns, depth));
      p.result.Going? && Moves(g, ts, Reading(p, tokens[k..]), depth, m) == s
    ensures Feed(g, ts, Idle, tokens, turns, depth) == s.p
    ensures forall i :: k < i < |tokens| ==> Fed(g, ts, tokens, turns, depth, i)
    decreases |tokens| - k
  {
    hide Moves, Turns, Move;
    var p := Begin(Feed(g, ts, Idle, tokens[..k], turns, depth));
    var n := turns(k);
    var l := OneToken(g, ts, p, tokens[k..], depth, m, n);
    var q := Turns(g, ts, p, tokens[k], depth, n);
    assert tokens[..k + 1][..k] == tokens[..k] && tokens[k..][1..] == tokens[k + 1..];
    assert q == Feed(g, ts, Idle, tokens[..k + 1], turns, depth);
    if q.stack == [] {
      AcceptedWaits(g, ts, p, tokens[k], depth, n);
      assert tokens[..k + 1] == tokens;
    } else {
      assert Begin(q) == q.(waiting := true);
      if q.errors { MovesRemember(g, ts, Reading(Begin(q), tokens[k + 1..]), depth, l); }
      if k + 1 == |tokens| { MovesStay(g, ts, Reading(Begin(q), tokens[k + 1..]), depth, l); }
      MoreMoves(g, ts, Reading(Begin(q), tokens[k + 1..]), depth, l, m);
      assert Fed(g, ts, tokens, turns, depth, k + 1);
      FeedMoves(g, ts, tokens, turns, depth, m, k + 1, s);
    }
  }

  lemma MoreMoves(g: Grammar, ts: Tables, s: Reading, depth: nat, m: nat, n: nat)
    requires m <= n && Moves(g, ts, s, depth, m).p.stack == []
    ensures Moves(g, ts, s, depth, n) == Moves(g, ts, s, depth, m)
  {
    hide Moves, Move;
    MovesJoin(g, ts, s, depth, m, n - m);
    MovesStay(g, ts, Moves(g, ts, s, depth, m), depth, n - m);
  }

  /** A driver with such tables accepts every sentence and returns its tree. */
  lemma SentenceAccepted(g: Grammar, a: Automaton, num: nat -> nat, ts: Tables, t: Tree, turns: nat -> nat, depth: nat)
    requires g.Valid() && Full(g, a) && Answers(g, a, num, ts) && Sentence(g, t, Yield(t)) && Tokens(g, Yield(t))
    requires Room(t) < depth && forall i :: 0 <= i <= |Yield(t)| ==> Nodes(t) <= turns(i)
    ensures Accepts(g, ts, Yield(t) + [0], turns, depth)
    ensures Feed(g, ts, Idle, Yield(t) + [0], turns, depth).result == Accepted(t)
  {
    hide Full, Answers, Moves, Turns;
    var tokens := Yield(t) + [0];
    SentenceMoves(g, a, num, ts, t, depth);
    assert tokens[..0] == [] && tokens[0..] == tokens;
    assert Begin(Feed(g, ts, Idle, [], turns, depth)) == Begun;
    FeedMoves(g, ts, tokens, turns, depth, Nodes(t), 0, Moves(g, ts, Reading(Begun, tokens), depth, Nodes(t)));
  }

  // ----- the generated tables -----

  /** No action was given up for another: every action of every state is written out. */
  ghost predicate ConflictFree(g: Grammar, u: Run) {
    forall q, x :: 0 <= q < |u.states| && x in ResolvedOf(g, u, q) ==> Emitted(x)
  }

  lemma BuiltIsFull(g: Grammar, states: seq<Lr0.State>)
    requires g.Valid() && Lr0.Built(g, states)
    ensures Full(g, Lr0.AutomatonOf(states))
  {
    hide AutomatonOk, Lr0.Closed, Lr0.AutomatonOf;
    var a := Lr0.AutomatonOf(states);
    Lr0.BuiltIsAutomaton(g, states);
    StatesClosed(g, states);
    forall q | 0 <= q < |a.configs| ensures FullAt(g, a, q) {
      forall c, x | c in a.configs[q] && Before(g, c, x)
        ensures x in a.goto[q] && a.goto[q][x] < |a.configs| && Config(c.rule, c.dot + 1) in a.configs[a.goto[q][x]]
      {
        DotMoves(g, states, q, c, x);
      }
    }
    forall r | 0 <= r < |g.rules| && g.rules[r].lhs == g.start ensures Config(r, 0) in a.configs[0] {
      StartThere(g, states, r);
    }
  }

  lemma DotMoves(g: Grammar, states: seq<Lr0.State>, q: nat, c: Config, x: Item)
    requires g.Valid() && Lr0.Built(g, states) && q < |states| && c in Lr0.AutomatonOf(states).configs[q]
    requires Before(g, c, x)
    ensures var a := Lr0.AutomatonOf(states);
      x in a.goto[q] && a.goto[q][x] < |a.configs| && Config(c.rule, c.dot + 1) in a.configs[a.goto[q][x]]
  {
    hide Lr0.Built, Lr0.AutomatonOf;
    var ps := Places(states, |states|);
    PlacesAreAll(g, states);
    MovedPlace(g, states, ps, Place(q, c));
    assert LrLookahead.Moved(g, Lr0.AutomatonOf(states), Place(q, c)) in ps;
  }

  lemma StartThere(g: Grammar, states: seq<Lr0.State>, r: nat)
    requires Lr0.Built(g, states) && r < |g.rules| && g.rules[r].lhs == g.start
    ensures |states| > 0 && Config(r, 0) in Lr0.AutomatonOf(states).configs[0]
  {
    assert Lr0.Shape(g, states, 0);
    assert Config(r, 0) in Lr0.Starts(g);
  }

  /** What was drafted is still there. */
  lemma DraftKept(g: Grammar, u: Run, q: nat, sp: nat, kind: Kind, arg: nat) returns (x: Action)
    requires RunOk(g, u) && ConflictFree(g, u) && q < |u.states| && Has(RawOf(g, u, q), sp, kind, arg)
    ensures x in ResolvedOf(g, u, q) && x.sp == sp && x.kind == kind && x.arg == arg && Emitted(x)
  {
    hide RawOf, Resolved, SortActions, Sorted, Grouped, Reordered, Lr0.Built, MostFrequent;
    var raw := RawOf(g, u, q);
    var xs, ys := SortActions(raw), ResolvedOf(g, u, q);
    assert ListOk(g, u, q);
    SortActionsOk(raw);
    ResolvedWeakens(u.prec, xs, 0);
    x :| x in raw && x.sp == sp && x.kind == kind && x.arg == arg;
    var i :| 0 <= i < |xs| && xs[i] == x;
    assert ys[i] in ys;
    WeakenedAt(xs, ys, i);
  }

  lemma DraftsOk(g: Grammar, u: Run, q: nat)
    requires RunOk(g, u) && q < |u.states|
    ensures ActionsOk(g, Lr0.AutomatonOf(u.states), q, u.fws(q), RawOf(g, u, q)) && OneEach(ResolvedOf(g, u, q))
  {
    hide Drafts, Allocated, ActionsOk, Resolved;
    ResolvedOk(g, u, q);
    ActionsAreOk(g, u.states, q, u.fws(q), u.address(q));
  }

  /** What the lists answer for a drafted action. */
  lemma DraftAnswered(g: Grammar, u: Run, q: nat, sp: nat, kind: Kind, arg: nat)
    requires RunOk(g, u) && ConflictFree(g, u) && q < |u.states| && Has(RawOf(g, u, q), sp, kind, arg)
    ensures var ts := ListTables(g, u);
      (sp < g.nterm && kind == SHIFT && arg < |u.states| ==> ts.act(q, sp) == ShiftTo(arg)) &&
      (sp < g.nterm && kind == REDUCE && arg < |g.rules| ==> ts.act(q, sp) == ReduceBy(arg)) &&
      (g.nterm <= sp < g.nsym && kind == SHIFT && arg < |u.states| ==> ts.go(q, sp) == ShiftTo(arg)) &&
      (g.nterm <= sp < g.nsym && kind == ACCEPT ==> ts.go(q, sp) == Accept)
  {
    hide RunOk, ConflictFree, RawOf, ResolvedOf, Row, Find, OneEach;
    var z, acts := SizesOf(g, u), ResolvedOf(g, u, q);
    var x := DraftKept(g, u, q, sp, kind, arg);
    DraftsOk(g, u, q);
    if sp < g.nterm {
      RowIs(z, Same, acts, 0, z.nterm);
    } else if sp < g.nsym {
      RowIs(z, Same, acts, z.nterm, z.nsym);
    }
  }

  lemma ListAnswersAt(g: Grammar, u: Run, q: nat)
    requires RunOk(g, u) && FollowOk(g, u) && ConflictFree(g, u) && q < |u.states|
    ensures AnswersAt(g, Lr0.AutomatonOf(u.states), Same, ListTables(g, u), q)
  {
    hide RunOk, ConflictFree, RawOf, Lr0.AutomatonOf, ListShift, ListGoto, Decode, DecodeGo, Has, Lookahead, Covers;
    var a, ts := Lr0.AutomatonOf(u.states), ListTables(g, u);
    RunShape(g, u);
    Lr0.BuiltIsAutomaton(g, u.states);
    DraftsOk(g, u, q);
    forall x, t: nat | x in a.goto[q] && Covers(x, t) && t < g.nterm ensures ts.act(q, t) == ShiftTo(a.goto[q][x]) {
      GotoItem(g, a, q, x);
      DraftAnswered(g, u, q, t, SHIFT, a.goto[q][x]);
    }
    forall r: nat, t: nat | ReduceAsked(g, a, q, r, t) ensures ts.act(q, t) == ReduceBy(r) {
      assert InStates(a, Place(q, Config(r, |g.rules[r].rhs|)));
      assert Reduces(g, a, q, u.fws(q), r, t);
      DraftAnswered(g, u, q, t, REDUCE, r);
    }
    forall n | g.nterm <= n < g.nsym && One(n) in a.goto[q] ensures ts.go(q, n) == ShiftTo(a.goto[q][One(n)]) {
      GotoItem(g, a, q, One(n));
      OneCovers(n);
      DraftAnswered(g, u, q, n, SHIFT, a.goto[q][One(n)]);
    }
    if q == 0 {
      var x :| x in RawOf(g, u, 0) && x.sp == g.start && x.kind == ACCEPT;
      HasIt(RawOf(g, u, 0), x);
      DraftAnswered(g, u, 0, g.start, ACCEPT, x.arg);
    }
  }

  lemma OneCovers(n: nat)
    ensures Covers(One(n), n)
  {}

  lemma HasIt(acts: seq<Action>, x: Action)
    requires x in acts
    ensures Has(acts, x.sp, x.kind, x.arg)
  {}

  function Exact(g: Grammar): nat -> nat { (r: nat) => if r < |g.rules| then |g.rules[r].rhs| else 0 }

  /** The resolved lists answer, with the lengths of the rules as they are. */
  lemma ListAnswers(g: Grammar, u: Run)
    requires RunOk(g, u) && FollowOk(g, u) && ConflictFree(g, u)
    ensures Answers(g, Lr0.AutomatonOf(u.states), Same, ListTables(g, u).(len := Exact(g)))
  {
    hide RunOk, FollowOk, ConflictFree, AnswersAt, ListShift, ListGoto, Decode, DecodeGo;
    var ts := ListTables(g, u);
    forall q | 0 <= q < |u.states| ensures AnswersAt(g, Lr0.AutomatonOf(u.states), Same, ts.(len := Exact(g)), q) {
      ListAnswersAt(g, u, q);
      SameAnswers(g, Lr0.AutomatonOf(u.states), Same, ts, ts.(len := Exact(g)), q);
    }
  }

  lemma SameAnswers(g: Grammar, a: Automaton, num: nat -> nat, ts: Tables, us: Tables, q: nat)
    requires q < |a.configs| == |a.goto| && AnswersAt(g, a, num, ts, q) && ts.act == us.act && ts.go == us.go
    ensures AnswersAt(g, a, num, us, q)
  {
    hide ReduceAsked, Covers;
  }

  /** Tables that agree with answering ones answer too, under the other numbers. */
  lemma AgreeingAnswer(g: Grammar, a: Automaton, num: nat -> nat, ts: Tables, us: Tables)
    requires g.Valid() && Answers(g, a, Same, ts.(len := Exact(g))) && Agree(g, |a.configs|, num, ts, us)
    requires forall r :: 0 <= r < |g.rules| ==> us.len(r) == |g.rules[r].rhs|
    ensures Answers(g, a, num, us)
  {
    hide ReduceAsked, Covers;
    forall q | 0 <= q < |a.configs| ensures AnswersAt(g, a, num, us, q) {
      assert AnswersAt(g, a, Same, ts.(len := Exact(g)), q);
      forall r: nat, t: nat | ReduceAsked(g, a, q, r, t) ensures us.act(num(q), t) == ReduceBy(r) {
        AskedToken(g, a, q, r, t);
      }
    }
  }

  lemma AskedToken(g: Grammar, a: Automaton, q: nat, r: nat, t: nat)
    requires q < |a.configs| && ReduceAsked(g, a, q, r, t)
    ensures t < g.nterm
  {}

  lemma WrittenAnswers(g: Grammar, u: Run, t: Arrays)
    requires RunOk(g, u) && FollowOk(g, u) && ConflictFree(g, u)
    requires AllPacked(SizesOf(g, u), u.num, t, Lists(g, u))
    requires forall r :: 0 <= r < |g.rules| ==> |g.rules[r].rhs| < 256
    ensures Full(g, Lr0.AutomatonOf(u.states))
    ensures Answers(g, Lr0.AutomatonOf(u.states), u.num, TablesOf(g, SizesOf(g, u), t))
  {
    hide RunOk, FollowOk, ConflictFree, AllPacked, Full, Answers, Agree, Grammar.Valid;
    RunShape(g, u);
    BuiltIsFull(g, u.states);
    ListAnswers(g, u);
    WrittenTablesAgree(g, u, t);
    AgreeingAnswer(g, Lr0.AutomatonOf(u.states), u.num, ListTables(g, u), TablesOf(g, SizesOf(g, u), t));
  }

  // ----- main results -----

  /**
   The parser generated from a grammar without conflicts accepts every sentence followed by the end of the input, and
   the tree it builds is the one given. A stack as deep as the tree takes and a turn for each of its nodes are enough.
   */
  lemma GeneratedParserComplete(g: Grammar, u: Run, ar: Arrays, t: Tree, turns: nat -> nat, depth: nat)
    requires RunOk(g, u) && FollowOk(g, u) && ConflictFree(g, u)
    requires AllPacked(SizesOf(g, u), u.num, ar, Lists(g, u))
    requires forall r :: 0 <= r < |g.rules| ==> |g.rules[r].rhs| < 256
    requires Sentence(g, t, Yield(t)) && Tokens(g, Yield(t))
    requires Room(t) < depth && forall i :: 0 <= i <= |Yield(t)| ==> Nodes(t) <= turns(i)
    ensures var ts := TablesOf(g, SizesOf(g, u), ar);
      Accepts(g, ts, Yield(t) + [0], turns, depth) &&
      Feed(g, ts, Idle, Yield(t) + [0], turns, depth).result == Accepted(t)
  {
    hide RunOk, FollowOk, ConflictFree, AllPacked, Full, Answers, Feed, Accepts;
    RunShape(g, u);
    WrittenAnswers(g, u, ar);
    SentenceAccepted(g, Lr0.AutomatonOf(u.states), u.num, TablesOf(g, SizesOf(g, u), ar), t, turns, depth);
  }

  /**
   Of all lists of tokens exactly the sentences are accepted, when the end of the input follows: some depth of the stack
   and some numbers of turns let the parser accept them without a syntax error if and only if the grammar derives them.
   */
  lemma GeneratedParserExact(g: Grammar, u: Run, ar: Arrays, w: seq<nat>)
    requires RunOk(g, u) && FollowOk(g, u) && ConflictFree(g, u)
    requires AllPacked(SizesOf(g, u), u.num, ar, Lists(g, u))
    requires (forall r :: 0 <= r < |g.rules| ==> |g.rules[r].rhs| < 256) && Tokens(g, w)
    ensures (exists turns: nat -> nat, depth: nat :: Accepts(g, TablesOf(g, SizesOf(g, u), ar), w + [0], turns, depth))
            <==> exists t :: Sentence(g, t, w)
  {
    hide RunOk, FollowOk, ConflictFree, AllPacked, Feed, Sentence, Fed;
    RunShape(g, u);
    var ts, tokens := TablesOf(g, SizesOf(g, u), ar), w + [0];
    if turns: nat -> nat, depth: nat :| Accepts(g, ts, tokens, turns, depth) {
      GeneratedParserSound(g, u, ar, tokens, turns, depth);
      assert tokens[..|w|] == w;
    }
    if t :| Sentence(g, t, w) {
      YieldIs(g, t, w);
      GeneratedParserComplete(g, u, ar, t, (_: nat) => Nodes(t), Room(t) + 1);
    }
  }

  lemma YieldIs(g: Grammar, t: Tree, w: seq<nat>)
    requires Sentence(g, t, w)
    ensures Yield(t) == w
  {}

  /** A grammar without conflicts has one derivation tree for every sentence. */
  lemma ConflictFreeIsUnambiguous(g: Grammar, u: Run, t: Tree, t': Tree, w: seq<nat>)
    requires RunOk(g, u) && FollowOk(g, u) && ConflictFree(g, u) && Tokens(g, w)
    requires Sentence(g, t, w) && Sentence(g, t', w)
    ensures t == t'
  {
    hide RunOk, FollowOk, ConflictFree, Full, Answers, Feed, Accepts;
    RunShape(g, u);
    BuiltIsFull(g, u.states);
    ListAnswers(g, u);
    var a, ts := Lr0.AutomatonOf(u.states), ListTables(g, u).(len := Exact(g));
    var n, depth := Nodes(t) + Nodes(t'), Room(t) + Room(t') + 1;
    SentenceAccepted(g, a, Same, ts, t, (_: nat) => n, depth);
    SentenceAccepted(g, a, Same, ts, t', (_: nat) => n, depth);
  }
}
