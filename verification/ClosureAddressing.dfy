/**
 Static addresses find the right run-time slot: from any activation, the depth and index that scope
 analysis gave a name lead to the slot of that variable in the closure of the scope that declares it.
 */
module ClosureAddressing {
  import opened Ast
  import opened Emission
  import opened Machine
  import opened RuntimeInvariant
  import opened NonLocalReturn
  import opened ScopeTracker
  import opened ScopeAnalysis

  // ----- the code objects of nested scopes -----

  /** `c` is the code object of a scope written in `e`, not inside another scope. */
  ghost predicate Pool(e: Node, c: Template)
    decreases Weight(e), 1
  {
    PartsWeighLess(e);
    match ScopeOf(e)
    case Some(s) => c == Template(s, if e.Lambda? then Ast.Block else Ast.Method)
    case None => PoolAll(Parts(e), c)
  }

  ghost predicate PoolAll(es: Nodes, c: Template)
    decreases WeightAll(es), 0
  {
    match es
    case NoNodes => false
    case More(e, rest) => Pool(e, c) || PoolAll(rest, c)
  }

  lemma PoolParts(e: Node, c: Template)
    requires ScopeOf(e).None?
    ensures Pool(e, c) <==> PoolAll(Parts(e), c)
  {
    hide Parts, ScopeOf;
  }

  lemma PoolOf(a: Node, rest: Nodes, c: Template)
    ensures PoolAll(More(a, rest), c) <==> Pool(a, c) || PoolAll(rest, c)
  {
    hide Pool;
  }

  /** The emitted pool holds nothing but what was there and the code objects of scopes in the tree. */
  lemma {:induction false} EmitPool(lay: Layout, blk: bool, e: Node, t: int, b: Buf, c: Template)
    ensures c in Emit(lay, blk, e, t, b).codes ==> c in b.codes || Pool(e, c)
    decreases e, 1
  {
    hide Weight, Pool, PoolAll;
    if ScopeOf(e).Some? {
      ScopePool(lay, blk, e, t, b, c);
    } else if !e.IfCond? && !e.Send? && !e.Try? {
      PoolParts(e, c);
      match e
      case Seq(x, y) => TwoPool(lay, blk, e, x, y, t, b, Emit(lay, blk, x, t, b), c);
      case And(x, y) => TwoPool(lay, blk, e, x, y, t, b, Push(Emit(lay, blk, x, t, b), [JMPIF, t, Size(lay, y)]), c);
      case Unless(x, y) => TwoPool(lay, blk, e, x, y, t, b, Push(Emit(lay, blk, x, t, b), [JMPIT, t, Size(lay, y)]), c);
      case While(x, y) =>
        TwoPool(lay, blk, e, x, y, t, b, Push(Emit(lay, blk, x, t, b), [JMPIF, t, Size(lay, y) + 2]), c);
      case Tuple(args) => EmitArgsPool(lay, blk, args, t, b, c);
      case List(args) => EmitArgsPool(lay, blk, args, t, b, c);
      case Assign(_, _, v) => EmitPool(lay, blk, v, t, b, c); PoolOf(v, NoNodes, c);
      case AssignOp(id, _, _, v) => EmitPool(lay, blk, v, t + 1, PushGet(b, lay.At(id), t), c); PoolOf(v, NoNodes, c);
      case Not(v) => EmitPool(lay, blk, v, t, b, c); PoolOf(v, NoNodes, c);
      case Raise(v) => EmitPool(lay, blk, v, t, b, c); PoolOf(v, NoNodes, c);
      case Return(v) => EmitPool(lay, blk, v, t, b, c); PoolOf(v, NoNodes, c);
      case _ =>
    } else {
      BranchPool(lay, blk, e, t, b, c);
    }
  }

  lemma ScopePool(lay: Layout, blk: bool, e: Node, t: int, b: Buf, c: Template)
    requires ScopeOf(e).Some?
    ensures c in Emit(lay, blk, e, t, b).codes ==> c in b.codes || Pool(e, c)
  {}

  lemma {:induction false} TwoPool(lay: Layout, blk: bool, e: Node, x: Node, y: Node, t: int, b: Buf, b1: Buf,
                                   c: Template)
    requires x < e && y < e && b1.codes == Emit(lay, blk, x, t, b).codes
    ensures c in Emit(lay, blk, y, t, b1).codes ==> c in b.codes || PoolAll(More(x, More(y, NoNodes)), c)
    decreases e, 0, 0
  {
    hide Emit, Pool, PoolAll;
    EmitPool(lay, blk, x, t, b, c);
    EmitPool(lay, blk, y, t, b1, c);
    PoolOf(x, More(y, NoNodes), c);
    PoolOf(y, NoNodes, c);
  }

  lemma {:induction false} BranchPool(lay: Layout, blk: bool, e: Node, t: int, b: Buf, c: Template)
    requires e.IfCond? || e.Send? || e.Try?
    ensures c in Emit(lay, blk, e, t, b).codes ==> c in b.codes || Pool(e, c)
    decreases e, 0, 1
  {
    hide Weight, Pool, PoolAll, Size;
    PoolParts(e, c);
    match e
    case IfCond(x, y, None) =>
      TwoPool(lay, blk, e, x, y, t, b, Push(Emit(lay, blk, x, t, b), [JMPIF, t, Size(lay, y)]), c);
    case IfCond(x, y, Some(z)) =>
      var b1 := Push(Emit(lay, blk, x, t, b), [JMPIF, t, Size(lay, y) + 2]);
      var b2 := Push(Emit(lay, blk, y, t, b1), [JMPF, Size(lay, z)]);
      EmitPool(lay, blk, x, t, b, c);
      EmitPool(lay, blk, y, t, b1, c);
      EmitPool(lay, blk, z, t, b2, c);
      PoolOf(x, More(y, More(z, NoNodes)), c);
      PoolOf(y, More(z, NoNodes), c);
      PoolOf(z, NoNodes, c);
    case Send(id, _, _, recv, args) =>
      var b1 := if Markov(lay, e) then PushGet(b, lay.At(id), t) else Emit(lay, blk, recv, t, b);
      EmitPool(lay, blk, recv, t, b, c);
      EmitArgsPool(lay, blk, args, t + 1, b1, c);
      PoolOf(recv, args, c);
    case Try(_, _, _, _, _) => TryPool(lay, blk, e, t, b, c);
  }

  lemma {:induction false} TryPool(lay: Layout, blk: bool, e: Node, t: int, b: Buf, c: Template)
    requires e.Try?
    ensures c in Emit(lay, blk, e, t, b).codes ==> c in b.codes || PoolAll(Parts(e), c)
    decreases e, 0, 0
  {
    hide Weight, Pool, PoolAll, Size;
    var h := e.handler;
    var b1 := TryBody(lay, blk, e, t, b);
    EmitPool(lay, blk, e.body, t, Push(b, [REGE, t, |b.code| + Size(lay, e.body) + 6]), c);
    if e.excType.Some? {
      var ty := e.excType.value;
      EmitPool(lay, blk, ty, t + 1, b1, c);
      if e.excName.Some? {
        EmitPool(lay, blk, h, t, TryTyped(lay, blk, e, t, b1), c);
      } else {
        EmitPool(lay, blk, h, t, b1, c);
      }
      PoolOf(e.body, More(ty, More(h, NoNodes)), c);
      PoolOf(ty, More(h, NoNodes), c);
    } else {
      EmitPool(lay, blk, h, t, b1, c);
      PoolOf(e.body, More(h, NoNodes), c);
    }
    PoolOf(h, NoNodes, c);
  }

  lemma {:induction false} EmitArgsPool(lay: Layout, blk: bool, es: Nodes, t: int, b: Buf, c: Template)
    ensures c in EmitArgs(lay, blk, es, t, b).codes ==> c in b.codes || PoolAll(es, c)
    decreases es, 1
  {
    hide Emit, Pool, PoolAll;
    match es
    case NoNodes =>
    case More(e, rest) =>
      EmitPool(lay, blk, e, t, b, c);
      EmitArgsPool(lay, blk, rest, t + 1, Emit(lay, blk, e, t, b), c);
      PoolOf(e, rest, c);
  }

  lemma {:induction false} PrologPool(lay: Layout, args: seq<Argument>, i: nat, b: Buf)
    requires i <= |args|
    ensures EmitArguments(lay, args, i, b).codes == b.codes
    decreases |args| - i
  {
    if i < |args| { PrologPool(lay, args, i + 1, EmitArgument(lay, args[i], i, b)); }
  }

  lemma CodePool(lay: Layout, o: Template, c: Template)
    requires c in CodeOf(lay, o).codes
    ensures Pool(o.scope.body, c)
  {
    hide Emit, EmitArguments, Pool;
    var s := o.scope;
    var b := if s.self.Some? then EmitArgument(lay, s.self.value, -1, Empty) else Empty;
    PrologPool(lay, s.args, 0, b);
    EmitPool(lay, o.kind == Ast.Block, s.body, TempBase(lay, s, o.kind), EmitProlog(lay, s, Empty), c);
  }

  // ----- closure chains and nesting -----

  lemma {:induction false} PoolResolved(g: Setting, st: Tracking, e: Node, stack: seq<nat>, c: Template)
    requires TreeResolved(g, st, e, stack) && Pool(e, c)
    ensures ScopeResolved(g, st, c.scope, stack + [c.scope.id]) && c.kind != Ast.Top
    decreases Weight(e), 1
  {
    hide Answered, ScopeResolved, Parts;
    PartsWeighLess(e);
    if ScopeOf(e).None? { PoolAllResolved(g, st, Parts(e), stack, c); }
  }

  lemma {:induction false} PoolAllResolved(g: Setting, st: Tracking, es: Nodes, stack: seq<nat>, c: Template)
    requires AllResolved(g, st, es, stack) && PoolAll(es, c)
    ensures ScopeResolved(g, st, c.scope, stack + [c.scope.id]) && c.kind != Ast.Top
    decreases WeightAll(es), 0
  {
    hide Pool, TreeResolved, ScopeResolved;
    if Pool(es.head, c) {
      PoolResolved(g, st, es.head, stack, c);
    } else {
      PoolAllResolved(g, st, es.rest, stack, c);
    }
  }

  /** The scopes whose activations the chain from `c` goes through, by id, outermost first; the globals have none. */
  function Owners(w: World, c: nat): seq<nat>
    decreases c
  {
    if c < |w.closures| && w.closures[c].parent.Some? && w.closures[c].parent.value < c then
      Owners(w, w.closures[c].parent.value) + [w.closures[c].owner.scope.id]
    else []
  }

  /** A closure's owner is a scope of the program, analysed inside exactly the scopes the chain goes through. */
  lemma {:induction false} OwnerResolved(g: Setting, st: Tracking, top: Scope, p: Program, w: World, c: nat)
    requires p.lay == LayoutOf(st) && ScopeResolved(g, st, top, [top.id]) && p.files == {top}
    requires ClosuresOk(p, w) && c < |w.closures| && w.closures[c].parent.Some?
    ensures ScopeResolved(g, st, w.closures[c].owner.scope, Owners(w, c)) && Owners(w, c) != []
    ensures Owners(w, c)[|Owners(w, c)| - 1] == w.closures[c].owner.scope.id
    decreases c
  {
    hide ScopeResolved, CodeOf, LayoutOf, ValuesOk;
    assert ClosureOk(p, w, c);
    var q := w.closures[c].parent.value;
    var o := w.closures[c].owner;
    if w.closures[q].parent.None? {
      assert Owners(w, q) + [o.scope.id] == [top.id];
    } else {
      OwnerResolved(g, st, top, p, w, q);
      CodePool(p.lay, w.closures[q].owner, o);
      ScopeBody(g, st, w.closures[q].owner.scope, Owners(w, q));
      PoolResolved(g, st, w.closures[q].owner.scope.body, Owners(w, q), o);
    }
  }

  lemma ScopeBody(g: Setting, st: Tracking, s: Scope, stack: seq<nat>)
    requires ScopeResolved(g, st, s, stack)
    ensures TreeResolved(g, st, s.body, stack)
  {}

  /** `d` steps up the chain stands the closure of the scope `d` levels out; beyond all of them, the globals. */
  lemma {:induction false} ChainIsNesting(p: Program, w: World, c: nat, d: nat)
    requires ClosuresOk(p, w) && c < |w.closures| && d <= |Owners(w, c)|
    ensures var a := Ancestor(w, c, d);
      a.Some? && Owners(w, a.value) == Owners(w, c)[..|Owners(w, c)| - d] &&
      if d < |Owners(w, c)| then
        w.closures[a.value].parent.Some? &&
        w.closures[a.value].owner.scope.id == Owners(w, c)[|Owners(w, c)| - 1 - d]
      else w.closures[a.value].parent.None?
    decreases d
  {
    hide Inside, ValuesOk;
    assert ClosureOk(p, w, c);
    if d > 0 { ChainIsNesting(p, w, w.closures[c].parent.value, d - 1); }
  }

  lemma {:induction false} ReadsAncestor(w: World, c: nat, d: nat, i: int)
    requires Ancestor(w, c, d).Some?
    ensures var a := Ancestor(w, c, d).value;
      GetAtDepth(w, c, d, i) ==
      if 0 <= i < |w.closures[a].values| then Holds(w.closures[a].values[i]) else BadSlot
    decreases d
  {
    if d > 0 { ReadsAncestor(w, w.closures[c].parent.value, d - 1, i); }
  }

  lemma {:induction false} WritesAncestor(w: World, c: nat, d: nat, i: int, v: Value)
    requires Ancestor(w, c, d).Some?
    ensures var a := Ancestor(w, c, d).value;
      SetAtDepth(w, c, d, i, v) ==
      if 0 <= i < |w.closures[a].values| then
        Some(w.(closures := w.closures[a := w.closures[a].(values := w.closures[a].values[i := v])]))
      else None
    decreases d
  {
    if d > 0 { WritesAncestor(w, w.closures[c].parent.value, d - 1, i, v); }
  }

  // ----- names -----

  /** `x` is `e` or a node in it that belongs to the same scope. */
  ghost predicate Contains(e: Node, x: Node)
    decreases Weight(e), 1
  {
    PartsWeighLess(e);
    e == x || (ScopeOf(e).None? && ContainsAny(Parts(e), x))
  }

  ghost predicate ContainsAny(es: Nodes, x: Node)
    decreases WeightAll(es), 0
  {
    match es
    case NoNodes => false
    case More(e, rest) => Contains(e, x) || ContainsAny(rest, x)
  }

  lemma {:induction false} ContainedResolved(g: Setting, st: Tracking, e: Node, stack: seq<nat>, x: Node)
    requires TreeResolved(g, st, e, stack) && Contains(e, x)
    ensures TreeResolved(g, st, x, stack)
    decreases Weight(e), 1
  {
    hide Answered, ScopeResolved, Parts, Resolved;
    PartsWeighLess(e);
    if e != x { ContainedAnyResolved(g, st, Parts(e), stack, x); }
  }

  lemma {:induction false} ContainedAnyResolved(g: Setting, st: Tracking, es: Nodes, stack: seq<nat>, x: Node)
    requires AllResolved(g, st, es, stack) && ContainsAny(es, x)
    ensures TreeResolved(g, st, x, stack)
    decreases WeightAll(es), 0
  {
    hide Contains, TreeResolved;
    if Contains(es.head, x) {
      ContainedResolved(g, st, es.head, stack, x);
    } else {
      ContainedAnyResolved(g, st, es.rest, stack, x);
    }
  }

  /** The slot `i` of closure `a` belongs to variable `name`: of the scope that owns `a`, or a global. */
  ghost predicate SlotIs(g: Setting, st: Tracking, w: World, a: nat, i: int, name: string) {
    a < |w.closures| && 0 <= i < |w.closures[a].values| &&
    if w.closures[a].parent.Some? then SlotOf(st, w.closures[a].owner.scope.id, name, i)
    else name in g.globals && g.globals[name] == i
  }

  /** The globals the analysis knows are among those there are. */
  ghost predicate GlobalsFit(g: Setting, p: Program) {
    forall x :: x in g.globals ==> 0 <= g.globals[x] < p.globals
  }

  lemma UseResolved(g: Setting, st: Tracking, x: Node, stack: seq<nat>)
    requires TreeResolved(g, st, x, stack) && ScopeOf(x).None? && !UseOf(x).NoUse? && UseOf(x).id in st.places
    ensures Resolved(g, st, UseOf(x).id, UseOf(x).name, stack)
  {
    hide Resolved, UseOf, Parts;
  }

  /**
   For any node of the running code's scope that uses a name kept in a closure: the recorded depth leads to a closure,
   the recorded index is one of its slots, and the slot is that of the variable of that name in the scope the closure
   was made for (or of that global).
   */
  lemma NameHasSlot(g: Setting, st: Tracking, top: Scope, p: Program, callers: seq<Frame>, f: Frame,
                    regs: Regs, w: World, x: Node, d: int, i: int)
    returns (a: nat)
    requires Inv(st) && st.stack == [] && ScopeResolved(g, st, top, [top.id]) && p.lay == LayoutOf(st)
    requires p.files == {top} && GlobalsFit(g, p) && StateOk(p, Running(callers, f, regs, w))
    requires Contains(f.m.code.scope.body, x) && !UseOf(x).NoUse? && p.lay.At(UseOf(x).id) == Some(Clo(d, i))
    ensures 0 <= d && Ancestor(w, f.clos, d) == Some(a) && SlotIs(g, st, w, a, i, UseOf(x).name)
  {
    hide Inv, ScopeResolved, TreeResolved, Contains, Resolved, UseOf, SlotOf, GetAtDepth, SetAtDepth, Inside,
         ValuesOk, RegsOk, Owners, Ancestor;
    LastFrame(p, callers, f, w);
    OwnerResolved(g, st, top, p, w, f.clos);
    var s := f.m.code.scope;
    var stack := Owners(w, f.clos);
    ScopeBody(g, st, s, stack);
    ContainedResolved(g, st, s.body, stack, x);
    UsesAreNodes(x);
    UseResolved(g, st, x, stack);
    PlaceNamesVariable(g, st, UseOf(x).id, UseOf(x).name, stack);
    ChainIsNesting(p, w, f.clos, d);
    a := Ancestor(w, f.clos, d).value;
    assert ClosureOk(p, w, a);
    if d < |stack| { SlotFits(st, p, w, a, UseOf(x).name, i); }
  }

  /** What `LVAR` reads and `SVAR` writes at an address: one slot of one closure, and nothing else. */
  lemma SlotAlone(w: World, c: nat, d: int, i: int, a: nat)
    requires 0 <= d && Ancestor(w, c, d) == Some(a) && 0 <= i < |w.closures[a].values|
    ensures GetAtDepth(w, c, d, i) == Holds(w.closures[a].values[i])
    ensures forall v ::
      SetAtDepth(w, c, d, i, v) ==
      Some(w.(closures := w.closures[a := w.closures[a].(values := w.closures[a].values[i := v])]))
  {
    hide GetAtDepth, SetAtDepth, Ancestor;
    ReadsAncestor(w, c, d, i);
    forall v { WritesAncestor(w, c, d, i, v); }
  }

  lemma UsesAreNodes(x: Node)
    requires !UseOf(x).NoUse?
    ensures ScopeOf(x).None?
  {}

  lemma SlotFits(st: Tracking, p: Program, w: World, a: nat, name: string, i: int)
    requires a < |w.closures| && ClosureOk(p, w, a) && w.closures[a].parent.Some? && p.lay == LayoutOf(st)
    requires SlotOf(st, w.closures[a].owner.scope.id, name, i)
    ensures 0 <= i < |w.closures[a].values|
  {
    hide Inside, ValuesOk;
  }
}
