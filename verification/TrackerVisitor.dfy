/** Scope analysis as the visitor performs it: cells, name tables and the node map are changed in place. */
module TrackerVisitor {
  import opened Ast
  import opened ScopeTracker

  class Tracker {
    const g: Setting
    var cells: seq<Cell>
    var places: map<nat, nat>
    var tables: map<nat, Names>
    var stack: seq<nat>
    var locals: map<nat, map<string, int>>
    var closed: map<nat, map<string, int>>

    function State(): Tracking
      reads this
    {
      Tracking(cells, places, tables, stack, locals, closed)
    }

    constructor (g: Setting)
      ensures State() == Nothing && this.g == g
    {
      this.g := g;
      cells, places, tables, stack, locals, closed := [], map[], map[], [], map[], map[];
    }

    /** `locals_.add` with a new local. */
    method Add(id: nat, c: Cell)
      modifies this
      ensures State() == Place(old(State()), id, c)
    {
      places := places[id := |cells|];
      cells := cells + [c];
    }

    /** `make_closure` on the variable found `d` scopes out, and the node's access to it. */
    method Capture(id: nat, name: string, d: nat, depth: nat)
      requires d < |stack| && name in State().Names(State().Out(d))
      modifies this
      ensures State() == Reach(old(State()), id, name, d, depth)
    {
      var c := State().Names(stack[|stack| - 1 - d])[name];
      if c < |cells| { cells := cells[c := MakeClosure(cells[c])]; }
      Add(id, Cell(Access, 0, false, c, depth));
    }

    method Insert(id: nat, name: string)
      requires stack != []
      modifies this
      ensures State() == Declare(old(State()), id, name)
    {
      var scope, names := stack[|stack| - 1], State().Names(stack[|stack| - 1]);
      tables := tables[scope := names[name := |cells|]];
      Add(id, Cell(Register, 0, false, 0, 0));
    }

    /** The search of the enclosing scopes, innermost first. */
    method Search(name: string) returns (found: Option<nat>)
      ensures found == Enclosing(State(), name, 1)
      ensures found.Some? ==> 1 <= found.value < |stack| && name in State().Names(State().Out(found.value))
    {
      var d: nat := 1;
      while d < |stack|
        invariant 1 <= d && Enclosing(State(), name, d) == Enclosing(State(), name, 1)
      {
        if name in State().Names(stack[|stack| - 1 - d]) { return Some(d); }
        d := d + 1;
      }
      found := None;
    }

    method FindScoped(id: nat, name: string)
      requires stack != []
      modifies this
      ensures State() == TrackLookup(g, old(State()), id, name)
    {
      var names := State().Names(stack[|stack| - 1]);
      if name in names {
        places := places[id := names[name]];
        return;
      }
      var d := Search(name);
      if d.Some? {
        Capture(id, name, d.value, d.value);
      } else if name in g.globals {
        Add(id, Cell(Global, g.globals[name], true, 0, |stack|));
      }
    }

    method VisitAssign(id: nat, name: string)
      requires stack != []
      modifies this
      ensures State() == TrackDefine(old(State()), id, name)
    {
      var names := State().Names(stack[|stack| - 1]);
      if name in names {
        places := places[id := names[name]];
        return;
      }
      var d := Search(name);
      if d.Some? { Capture(id, name, d.value, d.value); } else { Insert(id, name); }
    }

    /** `visit(AssignOp)` and `start_try_body`: the loop has no `return` in it. */
    method VisitRebind(id: nat, name: string)
      requires stack != []
      modifies this
      ensures State() == TrackRebind(old(State()), id, name)
    {
      var names := State().Names(stack[|stack| - 1]);
      if name in names {
        places := places[id := names[name]];
        return;
      }
      var d: nat := 1;
      while d < |stack|
        invariant 1 <= d && stack == old(stack)
        invariant ReachAll(State(), id, name, d) == ReachAll(old(State()), id, name, 1)
        decreases |stack| - d
      {
        if name in State().Names(stack[|stack| - 1 - d]) { Capture(id, name, d, d - 1); }
        d := d + 1;
      }
      ReachAllStack(old(State()), id, name, 1);
      Insert(id, name);
    }

    method Use(u: Use)
      requires stack != []
      modifies this
      ensures State() == Apply(g, old(State()), u)
    {
      match u
      case NoUse =>
      case Lookup(id, name) => FindScoped(id, name);
      case Define(id, name) => VisitAssign(id, name);
      case Rebind(id, name) => VisitRebind(id, name);
    }

    method AddArgument(scope: nat, a: Argument, position: int)
      modifies this
      ensures State() == EnterArgument(old(State()), scope, a, position)
    {
      var names := State().Names(scope);
      if a.name !in names { tables := tables[scope := names[a.name := |cells|]]; }
      Add(a.id, Cell(Arg, position, true, 0, 0));
    }

    method BeforeScope(s: Scope)
      modifies this
      ensures State() == Enter(old(State()), s)
    {
      stack := stack + [s.id];
      tables := tables[s.id := map[]];
      ghost var st := State();
      for i := 0 to |s.args|
        invariant EnterArguments(State(), s, i) == EnterArguments(st, s, 0)
      {
        AddArgument(s.id, s.args[i], i);
      }
      if s.self.Some? { AddArgument(s.id, s.self.value, -1); }
    }

    /** `visit(Scope)`: the locals get their registers and slots. */
    method AfterScope(s: Scope)
      requires stack != []
      modifies this
      ensures State() == Leave(g, old(State()), s)
    {
      var names := State().Names(s.id);
      var xs := g.order(names.Keys);
      var n0 := Numbering(cells, |s.args|, map[], map[]);
      var regs: nat := |s.args|;
      var registers: map<string, int>, slots: map<string, int> := map[], map[];
      for k := 0 to |xs|
        invariant State() == old(State()).(cells := cells) && |cells| == |old(cells)|
        invariant NumberAll(Numbering(cells, regs, registers, slots), names, xs[k..]) == NumberAll(n0, names, xs)
      {
        var x := xs[k];
        assert xs[k..][0] == x && xs[k..][1..] == xs[k + 1..];
        if x in names && names[x] < |cells| {
          var l := cells[names[x]];
          if !InRegister(l) {
            var c := |slots|;
            cells := cells[names[x] := l.(idx := c)];
            slots := slots[x := c];
          } else if l.fixed {
            registers := registers[x := l.idx];
          } else {
            cells := cells[names[x] := l.(idx := regs)];
            registers := registers[x := regs];
            regs := regs + 1;
          }
        }
      }
      stack := stack[..|stack| - 1];
      locals := locals[s.id := registers];
      closed := closed[s.id := slots];
    }

    /** `accept` with this visitor. */
    method Visit(e: Node)
      requires stack != []
      modifies this
      ensures State() == Track(g, old(State()), e)
      decreases Weight(e), 1
    {
      PartsWeighLess(e);
      var s, ps := ScopeOf(e), Parts(e);
      if s.Some? {
        VisitScope(s.value);
      } else if e.Try? {
        Visit(e.body);
        Use(UseOf(e));
        VisitAll(ps.rest);
      } else {
        VisitAll(ps);
        Use(UseOf(e));
      }
    }

    method VisitAll(es: Nodes)
      requires stack != []
      modifies this
      ensures State() == TrackAll(g, old(State()), es)
      decreases WeightAll(es), 0
    {
      match es
      case NoNodes =>
      case More(e, rest) =>
        Visit(e);
        VisitAll(rest);
    }

    method VisitScope(s: Scope)
      modifies this
      ensures State() == TrackScope(g, old(State()), s)
      decreases Weight(s.body), 2
    {
      BeforeScope(s);
      Visit(s.body);
      AfterScope(s);
    }
  }
}
