/** Grammars as the parser generator sees them, and what their nonterminals derive. */
module Grammars {

  /** A right-hand side element: one symbol, or a choice between terminals (a multi-terminal). */
  datatype Item = One(sym: nat) | Many(subs: seq<nat>)

  datatype Rule = Rule(lhs: nat, rhs: seq<Item>)

  /** Symbols below `nterm` are terminals, 0 being the end of input; the others are nonterminals. */
  datatype Grammar = Grammar(nterm: nat, nsym: nat, rules: seq<Rule>, start: nat)
  {
    predicate ItemOk(x: Item) {
      match x
      case One(s) => 0 < s < nsym
      case Many(subs) => subs != [] && forall i :: 0 <= i < |subs| ==> 0 < subs[i] < nterm
    }

    /** Rules rewrite nonterminals to symbols; the end of input is in no rule. */
    predicate Formed() {
      0 < nterm <= nsym &&
      forall r :: 0 <= r < |rules| ==>
        nterm <= rules[r].lhs < nsym && forall i :: 0 <= i < |rules[r].rhs| ==> ItemOk(rules[r].rhs[i])
    }

    /** The start symbol is a nonterminal that stands on no right-hand side. */
    predicate Valid() {
      Formed() && nterm <= start < nsym &&
      forall r :: 0 <= r < |rules| ==> forall i :: 0 <= i < |rules[r].rhs| ==> rules[r].rhs[i] != One(start)
    }
  }

  /** Whether symbol `s` may stand for the element. */
  predicate Covers(x: Item, s: nat) {
    match x
    case One(t) => t == s
    case Many(subs) => s in subs
  }

  /** Derivation trees; a leaf may be any symbol, so that trees also show sentential forms. */
  datatype Tree = Leaf(sym: nat) | Branch(rule: nat, kids: seq<Tree>)

  function Root(g: Grammar, t: Tree): nat {
    match t
    case Leaf(s) => s
    case Branch(r, _) => if r < |g.rules| then g.rules[r].lhs else 0
  }

  function Yield(t: Tree): seq<nat>
    decreases t, 0
  {
    match t
    case Leaf(s) => [s]
    case Branch(_, kids) => Yields(kids)
  }

  function Yields(ts: seq<Tree>): seq<nat>
    decreases ts, 1
  {
    if ts == [] then [] else Yields(ts[..|ts| - 1]) + Yield(ts[|ts| - 1])
  }

  /** Every branch applies a rule of the grammar. */
  ghost predicate Derivation(g: Grammar, t: Tree)
    decreases t
  {
    match t
    case Leaf(_) => true
    case Branch(r, kids) =>
      r < |g.rules| && |kids| == |g.rules[r].rhs| &&
      forall i :: 0 <= i < |kids| ==> Covers(g.rules[r].rhs[i], Root(g, kids[i])) && Derivation(g, kids[i])
  }

  lemma {:induction false} YieldsJoin(a: seq<Tree>, b: seq<Tree>)
    ensures Yields(a + b) == Yields(a) + Yields(b)
    decreases |b|
  {
    if b == [] {
      assert a + b == a;
    } else {
      var c := b[..|b| - 1];
      assert (a + b)[..|a + b| - 1] == a + c;
      YieldsJoin(a, c);
    }
  }
}
