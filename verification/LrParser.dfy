/** `yyParser` as it is changed: the stack of states grows and shrinks in the loop of `Parse`. */
module LrParser {
  import opened Grammars
  import opened LrDriver

  class YyParser {
    const g: Grammar
    const ts: Tables
    const depth: nat
    var stack: seq<Entry>
    var shifted: seq<nat>
    var errors: bool
    var result: Result

    /** The parser with a token still to be used up, or not. */
    function State(waiting: bool): Parser
      reads this
    {
      Parser(stack, waiting, shifted, errors, result)
    }

    constructor (g: Grammar, ts: Tables, depth: nat)
      ensures State(false) == Idle && this.g == g && this.ts == ts && this.depth == depth
    {
      this.g, this.ts, this.depth := g, ts, depth;
      stack, shifted, errors, result := [], [], false, Failed;
    }

    /** `yy_shift`. */
    method Shift(e: Entry)
      modifies this
      ensures forall w :: State(w) == Push(old(State(w)), e, depth)
    {
      if |stack| >= depth { stack, result := [], Failed; } else { stack := stack + [e]; }
    }

    /** `yy_reduce`. */
    method Reduce(r: nat)
      modifies this
      ensures forall w :: State(w) == LrDriver.Reduce(g, ts, old(State(w)), r, depth)
    {
      var n := ts.len(r);
      if r >= |g.rules| || n >= |stack| {
        stack, result := [], Stuck;
        return;
      }
      var m := |stack| - n;
      var tree := Branch(r, Trees(stack[m..]));
      stack := stack[..m];
      match ts.go(stack[m - 1].state, g.rules[r].lhs)
      case ShiftTo(s) => Shift(Entry(s, tree));
      case Accept => stack, result := [], Accepted(tree);
      case _ => stack, result := [], Stuck;
    }

    /**
     `Parse`, whose loop ends within some number of turns; `LrTermination` tells when it does. `waiting` is left true
     only where the parser stopped with the token not used up.
     */
    method Parse(t: nat, ghost turns: nat) returns (waiting: bool)
      requires EndsWithin(g, ts, Begin(State(false)), t, depth, turns)
      modifies this
      ensures State(waiting) == Turns(g, ts, Begin(old(State(false))), t, depth, turns)
      ensures stack == [] || !waiting
    {
      if stack == [] { stack, shifted, errors, result := [Entry(0, Leaf(0))], [], false, Going; }
      waiting := true;
      ghost var n: nat := turns;
      ghost var p := Begin(old(State(false)));
      while waiting && stack != []
        invariant n <= turns && Turns(g, ts, State(waiting), t, depth, n) == Turns(g, ts, p, t, depth, turns)
        decreases n
      {
        assert n > 0;
        n := n - 1;
        match ts.act(stack[|stack| - 1].state, t)
        case ShiftTo(s) =>
          if t == 0 {
            stack, result := [], Stuck;
          } else {
            shifted := shifted + [t];
            Shift(Entry(s, Leaf(t)));
            waiting := false;
          }
        case ReduceBy(r) => Reduce(r);
        case Error =>
          errors, waiting := true, false;
          if t == 0 { stack, result := [], Failed; }
        case _ => stack, result := [], Stuck;
      }
      TurnsIdle(g, ts, State(waiting), t, depth, n);
    }
  }
}
