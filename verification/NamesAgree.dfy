/**
 The evaluator over registers and slots does what names mean: for every program, run and runtime that leaves
 variables alone.
 */
module NamesAgree {
  import opened Ast
  import opened Emission
  import opened Machine
  import opened Evaluator
  import opened NonLocalReturn
  import opened RuntimeInvariant
  import opened NameEvaluator
  import opened ScopeTracker
  import opened ScopeAnalysis
  import opened ClosureAddressing
  import opened LexicalScoping
  import RA = RegisterAllocation

  // ----- runtimes that leave variables alone -----

  /** Worlds that differ only in what closures hold. */
  ghost predicate Alike(w: World, w': World) {
    w.heap == w'.heap && |w.closures| == |w'.closures| &&
    forall i :: 0 <= i < |w.closures| ==>
      w.closures[i].parent == w'.closures[i].parent && w.closures[i].returnTo == w'.closures[i].returnTo &&
      w.closures[i].owner == w'.closures[i].owner
  }

  /** From `w` the runtime went to `a`, and from a world that is alike to `b`. */
  ghost predicate Beside(w: World, a: World, b: World) { a.closures == w.closures && a.heap == b.heap }

  /** The same was made on both sides. */
  ghost predicate Likewise<T>(w: World, r: (T, World), r': (T, World)) { r.0 == r'.0 && Beside(w, r.1, r'.1) }

  /** The runtime neither looks at variables nor changes them, and makes no activations. */
  ghost predicate Blind(env: Env) {
    (forall w, w', v, name :: Alike(w, w') ==> env.find(w, v, name) == env.find(w', v, name)) &&
    (forall w, w', v, name, vs :: Alike(w, w') ==>
       env.native(w, v, name, vs).o == env.native(w', v, name, vs).o &&
       Beside(w, env.native(w, v, name, vs).w, env.native(w', v, name, vs).w)) &&
    (forall w, w', name :: Alike(w, w') ==> Likewise(w, env.missing(w, name), env.missing(w', name))) &&
    (forall w, w', a, n :: Alike(w, w') ==> Likewise(w, env.badArity(w, a, n), env.badArity(w', a, n))) &&
    (forall w, w', s :: Alike(w, w') ==> Likewise(w, env.newException(w, s), env.newException(w', s))) &&
    (forall w, w', vs :: Alike(w, w') ==> Likewise(w, env.makeTuple(w, vs), env.makeTuple(w', vs))) &&
    (forall w, w', vs :: Alike(w, w') ==> Likewise(w, env.makeList(w, vs), env.makeList(w', vs)))
  }

  // ----- an analysed program -----

  datatype Whole = Whole(g: Setting, st: Tracking, top: Scope, p: Program)
  {
    function Source(): Source { NameEvaluator.Source(p.env, Depths(g.globals.Keys, top)) }
  }

  /** Its registers lie below the temporaries, and `self` is not assigned. */
  ghost predicate Roomy(st: Tracking, t: Template) {
    RA.WellMade(t.scope.body) && RA.Settled(st, t.scope.id, TempBase(LayoutOf(st), t.scope, t.kind))
  }

  ghost predicate Proper(c: Whole) {
    Inv(c.st) && c.st.stack == [] && ScopeResolved(c.g, c.st, c.top, [c.top.id]) && c.p.lay == LayoutOf(c.st) &&
    c.p.files == {c.top} && GlobalsFit(c.g, c.p) && Injective(c.g.globals) && SaneRuntime(c.p) && Blind(c.p.env) &&
    SameDepths(c.Source().depths, c.st) && forall t :: CodeIn(c.p, t) ==> Roomy(c.st, t)
  }

  /** Where a finished scope keeps a variable. */
  ghost function Home(st: Tracking, scope: nat, x: string): (l: Option<Loc>)
    ensures l.Some? && l.value.Clo? ==> l.value.depth == 0
  {
    if TableCell(st, scope, x) && st.tables[scope][x] < |st.cells| then
      var l := st.cells[st.tables[scope][x]];
      Some(if InRegister(l) then Reg(l.idx) else Clo(0, l.idx))
    else None
  }

  // ----- how the two memories correspond -----

  /** A variable that has a value and lives in closure `a` has that value there. */
  ghost predicate SlotHolds(c: Whole, w: World, vars: seq<map<string, Value>>, a: nat, x: string)
    requires a < |vars| && a < |w.closures| && x in vars[a]
  {
    var l := w.closures[a];
    if l.parent.None? then
      x in c.g.globals ==>
        0 <= c.g.globals[x] < |l.values| && l.values[c.g.globals[x]] == vars[a][x]
    else
      match Home(c.st, l.owner.scope.id, x)
      case Some(Clo(_, i)) => 0 <= i < |l.values| && l.values[i] == vars[a][x]
      case _ => true
  }

  ghost predicate Remembers(c: Whole, w: World, vars: seq<map<string, Value>>) {
    |vars| == |w.closures| && forall a, x :: 0 <= a < |vars| && x in vars[a] ==> SlotHolds(c, w, vars, a, x)
  }

  /** A variable that has a value and lives in a register of the running activation has that value there. */
  ghost predicate RegisterHolds(st: Tracking, scope: nat, locals: Locals, vars: map<string, Value>, self: Value,
                                x: string)
    requires x in vars
  {
    match Home(st, scope, x)
    case Some(Reg(r)) => if r == -1 then vars[x] == self else 0 <= r < |locals| && locals[r] == Some(vars[x])
    case _ => true
  }

  ghost predicate LocalsHold(st: Tracking, scope: nat, locals: Locals, vars: map<string, Value>, self: Value) {
    forall x :: x in vars ==> RegisterHolds(st, scope, locals, vars, self, x)
  }

  ghost predicate LocalsOk(p: Program, w: World, locals: Locals) {
    forall i :: 0 <= i < |locals| && locals[i].Some? ==> ValueOk(p, w, locals[i].value)
  }

  ghost predicate Common(c: Whole, w: World, m: Memory) {
    WorldOk(c.p, w) && Alike(w, m.w) && Remembers(c, w, m.vars)
  }

  /** The activation of `x` is running. */
  ghost predicate Runs(p: Program, x: Ctx, w: World) {
    x.clos < |w.closures| && w.closures[x.clos].parent == Some(x.m.closure) && w.closures[x.clos].owner == x.m.code &&
    ValueOk(p, w, x.self)
  }

  ghost predicate Live(c: Whole, x: Ctx, locals: Locals, w: World, m: Memory) {
    Common(c, w, m) && Runs(c.p, x, w) && |locals| == TempBase(c.p.lay, x.m.code.scope, x.m.code.kind) &&
    LocalsOk(c.p, w, locals) && x.clos < |m.vars| &&
    LocalsHold(c.st, x.m.code.scope.id, locals, m.vars[x.clos], x.self)
  }

  ghost predicate SameValue(vars: map<string, Value>, vars': map<string, Value>, x: string) {
    (x in vars <==> x in vars') && (x in vars ==> vars[x] == vars'[x])
  }

  /** The variable of that name in the activation of a closure is kept in a register. */
  ghost predicate InRegisters(st: Tracking, l: Closure, x: string) {
    l.parent.Some? && Home(st, l.owner.scope.id, x).Some? && Home(st, l.owner.scope.id, x).value.Reg?
  }

  /** Register variables of activations other than `k` are left alone. */
  ghost predicate RegistersStay(st: Tracking, w: World, vars: seq<map<string, Value>>, vars': seq<map<string, Value>>,
                                k: nat)
  {
    |vars| <= |vars'| && |vars| <= |w.closures| &&
    forall a, x :: 0 <= a < |vars| && a != k && InRegisters(st, w.closures[a], x) ==> SameValue(vars[a], vars'[a], x)
  }

  ghost predicate Moved(c: Whole, w: World, m: Memory, w': World, m': Memory, k: nat) {
    Grown(w, w') && RegistersStay(c.st, w, m.vars, m'.vars, k)
  }

  /** What the evaluator found, starting in `w`, is what names mean, starting in `m`. */
  ghost predicate Fits(c: Whole, x: Ctx, w: World, m: Memory, r: Res, q: NameRes) {
    match q
    case Gives(v, m') =>
      r.Norm? && r.v == v && ValueOk(c.p, r.w, v) && Live(c, x, r.locals, r.w, m') && Moved(c, w, m, r.w, m', x.clos)
    case Throws(e, m') =>
      r.Exc? && r.e == e && Live(c, x, r.locals, r.w, m') && Moved(c, w, m, r.w, m', x.clos)
    case Ends(o, m') =>
      r.Leave? && r.o == o && OutcomeOk(c.p, r.w, o) && Common(c, r.w, m') && Moved(c, w, m, r.w, m', x.clos)
    case Unset => true
    case NoFuel => r.Timeout?
    case Fails => r.Abort?
  }

  /** The same of a call; `k` is no activation that existed before. */
  ghost predicate CallFits(c: Whole, w: World, m: Memory, r: CallRes, q: NameCall) {
    match q
    case Comes(o, m') =>
      r.Came? && r.o == o && OutcomeOk(c.p, r.w, o) && Common(c, r.w, m') && Moved(c, w, m, r.w, m', |w.closures|)
    case CallUnset => true
    case CallNoFuel => r.CallTimeout?
    case CallFails => r.CallAbort?
  }

  // ----- looking a variable up -----

  lemma {:induction false} AlikeAncestor(w: World, w': World, c: nat, d: nat)
    requires Alike(w, w')
    ensures Ancestor(w, c, d) == Ancestor(w', c, d)
    decreases d
  {
    if d > 0 && c < |w.closures| && w.closures[c].parent.Some? {
      AlikeAncestor(w, w', w.closures[c].parent.value, d - 1);
    }
  }

  /** The chain of the running activation is the scopes its code was analysed in. */
  lemma StackOf(c: Whole, x: Ctx, w: World)
    requires Proper(c) && ClosuresOk(c.p, w) && Runs(c.p, x, w)
    ensures var stack := Owners(w, x.clos);
      stack != [] && stack[|stack| - 1] == x.m.code.scope.id &&
      ScopeResolved(c.g, c.st, x.m.code.scope, stack)
  {
    hide Inv, ScopeResolved, GlobalsFit, SaneRuntime, Blind, SameDepths, Roomy, CodeIn, ClosuresOk, Depths, LayoutOf,
         CodeOf;
    OwnerResolved(c.g, c.st, c.top, c.p, w, x.clos);
  }

  /** Slot `i` of closure `a` is where the variable of that name lives. */
  ghost predicate Lives(c: Whole, w: World, a: nat, name: string, i: int)
    requires a < |w.closures|
  {
    if w.closures[a].parent.None? then name in c.g.globals && c.g.globals[name] == i
    else Home(c.st, w.closures[a].owner.scope.id, name) == Some(Clo(0, i))
  }

  /**
   The activation a name's variable belongs to, and where in it the variable lives: `r` of its own registers, or
   slot `i` of the closure the place of the node leads to.
   */
  lemma PlaceOf(c: Whole, x: Ctx, w: World, m: Memory, id: nat, name: string) returns (a: nat)
    requires Proper(c) && Common(c, w, m) && Runs(c.p, x, w)
    requires Resolved(c.g, c.st, id, name, Owners(w, x.clos))
    ensures Whose(c.Source(), x, id, m) == Some(a) && c.p.lay.At(id).Some?
    ensures a < |w.closures|
    ensures var l := c.p.lay.At(id).value;
      (l.Reg? ==> a == x.clos && Home(c.st, x.m.code.scope.id, name) == Some(l)) &&
      (l.Clo? ==> 0 <= l.depth && Ancestor(w, x.clos, l.depth) == Some(a) && Lives(c, w, a, name, l.slot))
  {
    hide Inv, ScopeResolved, GlobalsFit, SaneRuntime, Blind, Roomy, CodeIn, ClosuresOk, Depths, Remembers, Injective,
         Ancestor, Owners, CodeOf;
    StackOf(c, x, w);
    var d := DepthOf(c.st, id);
    assert id in c.Source().depths && c.Source().depths[id] == d;
    ChainIsNesting(c.p, w, x.clos, d);
    a := Ancestor(w, x.clos, d).value;
    WhoseIs(c, x, w, m, id, d, a);
    if d == 0 { AncestorSelf(w, x.clos); }
  }

  lemma AncestorSelf(w: World, c: nat)
    requires c < |w.closures|
    ensures Ancestor(w, c, 0) == Some(c)
  {}

  lemma WhoseIs(c: Whole, x: Ctx, w: World, m: Memory, id: nat, d: nat, a: nat)
    requires Common(c, w, m) && id in c.Source().depths && c.Source().depths[id] == d
    requires Ancestor(w, x.clos, d) == Some(a)
    ensures Whose(c.Source(), x, id, m) == Some(a)
  {
    hide WorldOk, Ancestor, SlotHolds, Depths;
    AlikeAncestor(w, m.w, x.clos, d);
  }

  lemma NotMoved(c: Whole, w: World, m: Memory, k: nat)
    requires |m.vars| == |w.closures|
    ensures Moved(c, w, m, w, m, k)
  {}

  lemma Sizes(c: Whole, w: World, m: Memory)
    requires Common(c, w, m)
    ensures |m.vars| == |w.closures| && ClosuresOk(c.p, w) && |m.w.closures| == |w.closures|
  {
    hide ClosureOk, SlotHolds;
  }

  lemma ReadFits(c: Whole, x: Ctx, id: nat, name: string, locals: Locals, w: World, m: Memory)
    requires Proper(c) && Live(c, x, locals, w, m) && Resolved(c.g, c.st, id, name, Owners(w, x.clos))
    ensures Fits(c, x, w, m, Read(x, c.p.lay.At(id), locals, w), Recall(c.Source(), x, id, name, m))
  {
    hide Proper, WorldOk, Alike, Resolved, Home, GetAtDepth, ClosureOk, Moved, Whose, LayoutOf, Depths, Ancestor,
         CodeOf;
    Sizes(c, w, m);
    var a := PlaceOf(c, x, w, m, id, name);
    NotMoved(c, w, m, x.clos);
    if name in m.vars[a] {
      assert SlotHolds(c, w, m.vars, a, name);
      match c.p.lay.At(id).value
      case Reg(r) => assert RegisterHolds(c.st, x.m.code.scope.id, locals, m.vars[a], x.self, name);
      case Clo(d, i) =>
        ReadsAncestor(w, x.clos, d, i);
        ReadOk(c.p, w, x.clos, d, i);
    }
  }

  // ----- assigning a variable -----

  lemma HomeKept(st: Tracking, scope: nat, x: string)
    requires Inv(st) && st.stack == [] && Home(st, scope, x).Some?
    ensures scope in st.locals && scope in st.closed
    ensures match Home(st, scope, x).value
      case Reg(r) => x in st.locals[scope] && st.locals[scope][x] == r
      case Clo(_, i) => SlotOf(st, scope, x, i)
  {
    hide Inv, SlotOf;
    VariableCell(st, scope, x);
  }

  lemma HomesApart(st: Tracking, scope: nat, x: string, y: string)
    requires Inv(st) && st.stack == [] && Home(st, scope, x).Some? && x != y
    ensures Home(st, scope, x) != Home(st, scope, y)
  {
    hide Inv, Home;
    HomeKept(st, scope, x);
    if Home(st, scope, y).Some? { HomeKept(st, scope, y); }
    VariablesApart(st, scope, x, y);
  }

  lemma RegisterRoom(c: Whole, x: Ctx, w: World, name: string, r: int)
    requires Proper(c) && ClosuresOk(c.p, w) && Runs(c.p, x, w) && name != "self"
    requires Home(c.st, x.m.code.scope.id, name) == Some(Reg(r))
    ensures 0 <= r < TempBase(c.p.lay, x.m.code.scope, x.m.code.kind)
  {
    hide Inv, ScopeResolved, GlobalsFit, SaneRuntime, Blind, CodeIn, ClosuresOk, Depths, SameDepths, Home,
         RA.WellMade, TempBase, LayoutOf, CodeOf;
    OwnerIn(c.p, w, x.clos);
    assert Roomy(c.st, x.m.code);
    HomeKept(c.st, x.m.code.scope.id, name);
  }

  lemma SlotInRange(c: Whole, w: World, a: nat, name: string, i: int)
    requires Proper(c) && ClosuresOk(c.p, w) && a < |w.closures|
    requires Lives(c, w, a, name, i)
    ensures 0 <= i < |w.closures[a].values|
  {
    hide Inv, ScopeResolved, SaneRuntime, Blind, CodeIn, Depths, SameDepths, Home, Roomy, LayoutOf,
         RuntimeInvariant.Inside, ValuesOk;
    assert ClosureOk(c.p, w, a);
    if w.closures[a].parent.Some? {
      HomeKept(c.st, w.closures[a].owner.scope.id, name);
      SlotFits(c.st, c.p, w, a, name, i);
    }
  }

  lemma RegisterWritten(c: Whole, x: Ctx, name: string, r: int, v: Value, locals: Locals, w: World, m: Memory)
    requires Proper(c) && Live(c, x, locals, w, m) && ValueOk(c.p, w, v) && 0 <= r < |locals|
    requires Home(c.st, x.m.code.scope.id, name) == Some(Reg(r))
    ensures var m' := m.(vars := m.vars[x.clos := m.vars[x.clos][name := v]]);
      Live(c, x, locals[r := Some(v)], w, m') && Moved(c, w, m, w, m', x.clos)
  {
    hide WorldOk, Alike, Home, ClosureOk, ScopeResolved, GlobalsFit, SaneRuntime, Blind, CodeIn, Depths, SameDepths,
         LayoutOf, Roomy, ValueOk, Inv;
    Sizes(c, w, m);
    var vars, scope := m.vars[x.clos], x.m.code.scope.id;
    var m', locals' := m.(vars := m.vars[x.clos := vars[name := v]]), locals[r := Some(v)];
    forall y | y in m'.vars[x.clos] ensures RegisterHolds(c.st, scope, locals', m'.vars[x.clos], x.self, y) {
      if y != name {
        HomesApart(c.st, scope, name, y);
        assert RegisterHolds(c.st, scope, locals, vars, x.self, y);
      }
    }
    forall a, y | 0 <= a < |m'.vars| && y in m'.vars[a] ensures SlotHolds(c, w, m'.vars, a, y) {
      if a != x.clos || y != name { assert SlotHolds(c, w, m.vars, a, y); }
    }
  }

  lemma SlotKept(c: Whole, x: Ctx, a: nat, i: int, name: string, v: Value, w: World, m: Memory, b: nat, y: string)
    requires Inv(c.st) && c.st.stack == [] && Injective(c.g.globals)
    requires a < |w.closures| == |m.vars| && Lives(c, w, a, name, i) && 0 <= i < |w.closures[a].values|
    requires b < |m.vars| && (b != a || y != name) && y in m.vars[b] && SlotHolds(c, w, m.vars, b, y)
    ensures var vars := m.vars[a := m.vars[a][name := v]];
      y in vars[b] && SlotHolds(c, Stored(w, a, i, v), vars, b, y)
  {
    hide Inv, Home;
    if b == a && w.closures[a].parent.Some? { HomesApart(c.st, w.closures[a].owner.scope.id, name, y); }
  }

  lemma SlotRemembers(c: Whole, x: Ctx, a: nat, i: int, name: string, v: Value, w: World, m: Memory)
    requires Inv(c.st) && c.st.stack == [] && Injective(c.g.globals) && Remembers(c, w, m.vars)
    requires a < |w.closures| && Lives(c, w, a, name, i) && 0 <= i < |w.closures[a].values|
    ensures Remembers(c, Stored(w, a, i, v), m.vars[a := m.vars[a][name := v]])
  {
    hide Inv, Home, Injective, SlotHolds;
    var w', vars := Stored(w, a, i, v), m.vars[a := m.vars[a][name := v]];
    forall b, y | 0 <= b < |vars| && y in vars[b] ensures SlotHolds(c, w', vars, b, y) {
      if b == a && y == name {
        SlotGained(c, a, i, name, v, w, m);
      } else {
        assert SlotHolds(c, w, m.vars, b, y);
        SlotKept(c, x, a, i, name, v, w, m, b, y);
      }
    }
  }

  lemma SlotGained(c: Whole, a: nat, i: int, name: string, v: Value, w: World, m: Memory)
    requires a < |w.closures| == |m.vars| && Lives(c, w, a, name, i) && 0 <= i < |w.closures[a].values|
    ensures SlotHolds(c, Stored(w, a, i, v), m.vars[a := m.vars[a][name := v]], a, name)
  {
    hide Home;
  }

  lemma LocalsGrown(p: Program, w: World, w': World, locals: Locals)
    requires Grown(w, w') && LocalsOk(p, w, locals)
    ensures LocalsOk(p, w', locals)
  {
    hide ValueOk, Grown;
    forall i | 0 <= i < |locals| && locals[i].Some? ensures ValueOk(p, w', locals[i].value) {
      GrownMethods(p, w, w', locals[i].value);
    }
  }

  lemma RunsGrown(p: Program, x: Ctx, w: World, w': World)
    requires Grown(w, w') && Runs(p, x, w)
    ensures Runs(p, x, w')
  {
    hide ValueOk;
    GrownMethods(p, w, w', x.self);
  }

  lemma SlotWritten(c: Whole, x: Ctx, a: nat, i: int, name: string, v: Value, locals: Locals, w: World, m: Memory)
    requires Proper(c) && Live(c, x, locals, w, m) && a < |w.closures| && Lives(c, w, a, name, i)
    requires 0 <= i < |w.closures[a].values| && WorldOk(c.p, Stored(w, a, i, v)) && Grown(w, Stored(w, a, i, v))
    ensures |m.vars| == |w.closures|
    ensures var w', m' := Stored(w, a, i, v), m.(vars := m.vars[a := m.vars[a][name := v]]);
      Live(c, x, locals, w', m') && Moved(c, w, m, w', m', x.clos)
  {
    hide WorldOk, ScopeResolved, GlobalsFit, SaneRuntime, Blind, CodeIn, Depths, SameDepths, LayoutOf, Roomy, ValueOk,
         Inv, Injective, Remembers, Home, LocalsOk, Grown, CodeOf;
    Sizes(c, w, m);
    var w', m' := Stored(w, a, i, v), m.(vars := m.vars[a := m.vars[a][name := v]]);
    SlotRemembers(c, x, a, i, name, v, w, m);
    LocalsGrown(c.p, w, w', locals);
    RunsGrown(c.p, x, w, w');
    var scope := x.m.code.scope.id;
    forall y | y in m'.vars[x.clos] ensures RegisterHolds(c.st, scope, locals, m'.vars[x.clos], x.self, y) {
      if a != x.clos || y != name { assert RegisterHolds(c.st, scope, locals, m.vars[x.clos], x.self, y); }
    }
  }

  lemma WriteFits(c: Whole, x: Ctx, id: nat, name: string, v: Value, locals: Locals, w: World, m: Memory)
    requires Proper(c) && Live(c, x, locals, w, m) && Resolved(c.g, c.st, id, name, Owners(w, x.clos))
    requires ValueOk(c.p, w, v) && name != "self"
    ensures Fits(c, x, w, m, Write(x, c.p.lay.At(id), v, locals, w), Remember(c.Source(), x, id, name, v, m))
  {
    hide Proper, WorldOk, Alike, Resolved, Home, SetAtDepth, ClosureOk, Moved, Whose, LayoutOf, Depths, Ancestor,
         Remembers, LocalsHold, LocalsOk, Grown, ValueOk, SaneRuntime, Blind;
    Sizes(c, w, m);
    var a := PlaceOf(c, x, w, m, id, name);
    match c.p.lay.At(id).value
    case Reg(r) =>
      RegisterRoom(c, x, w, name, r);
      RegisterWritten(c, x, name, r, v, locals, w, m);
    case Clo(d, i) =>
      SlotInRange(c, w, a, name, i);
      WritesAncestor(w, x.clos, d, i, v);
      SaneOf(c);
      WriteOk(c.p, w, x.clos, d, i, v);
      SlotWritten(c, x, a, i, name, v, locals, w, m);
      GrownMethods(c.p, w, Stored(w, a, i, v), v);
  }

  lemma SaneOf(c: Whole)
    requires Proper(c)
    ensures SaneRuntime(c.p) && Blind(c.p.env) && Inv(c.st) && c.st.stack == [] && c.p.lay == LayoutOf(c.st)
    ensures c.Source().env == c.p.env
  {}

  // ----- what the runtime does -----

  lemma HeapMoved(c: Whole, w: World, m: Memory, a: World, b: World, k: nat)
    requires Common(c, w, m) && Beside(w, a, b) && WorldOk(c.p, a)
    ensures Common(c, a, Heap(m, b)) && Moved(c, w, m, a, Heap(m, b), k)
  {
    hide WorldOk, Home;
    forall d, x | 0 <= d < |m.vars| && x in m.vars[d] ensures SlotHolds(c, a, m.vars, d, x) {
      assert SlotHolds(c, w, m.vars, d, x);
    }
  }

  /** A caller after a call. */
  lemma LiveAfter(c: Whole, x: Ctx, locals: Locals, w: World, m: Memory, w': World, m': Memory)
    requires Live(c, x, locals, w, m) && Common(c, w', m') && Moved(c, w, m, w', m', |w.closures|)
    ensures Live(c, x, locals, w', m') && Moved(c, w, m, w', m', x.clos)
  {
    hide WorldOk, Home, Alike, Remembers, LocalsOk, Grown, ValueOk, RegisterHolds;
    LocalsGrown(c.p, w, w', locals);
    RunsGrown(c.p, x, w, w');
    LocalsAfter(c, x, locals, w, m, m');
  }

  lemma LocalsAfter(c: Whole, x: Ctx, locals: Locals, w: World, m: Memory, m': Memory)
    requires Runs(c.p, x, w) && x.clos < |m.vars| && RegistersStay(c.st, w, m.vars, m'.vars, |w.closures|)
    requires LocalsHold(c.st, x.m.code.scope.id, locals, m.vars[x.clos], x.self)
    ensures LocalsHold(c.st, x.m.code.scope.id, locals, m'.vars[x.clos], x.self)
  {
    hide Home, ValueOk;
    var scope := x.m.code.scope.id;
    forall y | y in m'.vars[x.clos] ensures RegisterHolds(c.st, scope, locals, m'.vars[x.clos], x.self, y) {
      if InRegisters(c.st, w.closures[x.clos], y) {
        assert SameValue(m.vars[x.clos], m'.vars[x.clos], y);
        assert RegisterHolds(c.st, scope, locals, m.vars[x.clos], x.self, y);
      }
    }
  }

  lemma TakenFits(c: Whole, x: Ctx, locals: Locals, w: World, m: Memory, r: CallRes, q: NameCall)
    requires Live(c, x, locals, w, m) && CallFits(c, w, m, r, q)
    ensures Fits(c, x, w, m, Finish(r, x.clos, locals), Taken(q, x.clos))
  {
    hide Live, Common, Moved, ValueOk;
    if q.Comes? { LiveAfter(c, x, locals, w, m, r.w, q.m); }
  }

  lemma NewExceptionFits(c: Whole, x: Ctx, v: Value, locals: Locals, w: World, m: Memory)
    requires Proper(c) && Live(c, x, locals, w, m)
    ensures Fits(c, x, w, m, RaiseWith(c.p.env, v, locals, w), RaiseName(c.Source(), v, m))
  {
    hide Proper, WorldOk, Home, Remembers, LocalsOk, Grown, ValueOk, LocalsHold, RegistersStay, Runs, Alike, Depths,
         SaneRuntime, Blind;
    SaneOf(c);
    Sizes(c, w, m);
    match v
    case ExcV(e) => NotMoved(c, w, m, x.clos);
    case StrV(s) =>
      var a, b := c.p.env.newException(w, s), c.p.env.newException(m.w, s);
      assert MadeOk(c.p, w, NilV, a.1) by { SaneMakes(c.p, w); }
      assert Likewise(w, a, b) by { BlindMakes(c.p.env, w, m.w); }
      HeapMoved(c, w, m, a.1, b.1, |w.closures|);
      LiveAfter(c, x, locals, w, m, a.1, Heap(m, b.1));
    case _ =>
  }

  /** What is known of the parts of the runtime that make something. */
  lemma SaneMakes(p: Program, w: World)
    requires SaneRuntime(p) && WorldOk(p, w)
    ensures forall s :: MadeOk(p, w, NilV, p.env.newException(w, s).1)
    ensures forall s :: MadeOk(p, w, NilV, p.env.missing(w, s).1)
    ensures forall a, n :: MadeOk(p, w, NilV, p.env.badArity(w, a, n).1)
    ensures forall vs :: ValuesOk(p, w, vs) ==> MadeOk(p, w, p.env.makeTuple(w, vs).0, p.env.makeTuple(w, vs).1)
    ensures forall vs :: ValuesOk(p, w, vs) ==> MadeOk(p, w, p.env.makeList(w, vs).0, p.env.makeList(w, vs).1)
  {
    hide WorldOk, ValuesOk, MadeOk, NativeOk, ValueOk, MethodOk, ClosuresOk, Grown;
  }

  lemma BlindMakes(env: Env, w: World, w': World)
    requires Blind(env) && Alike(w, w')
    ensures forall s :: Likewise(w, env.newException(w, s), env.newException(w', s))
    ensures forall s :: Likewise(w, env.missing(w, s), env.missing(w', s))
    ensures forall a, n :: Likewise(w, env.badArity(w, a, n), env.badArity(w', a, n))
    ensures forall vs :: Likewise(w, env.makeTuple(w, vs), env.makeTuple(w', vs))
    ensures forall vs :: Likewise(w, env.makeList(w, vs), env.makeList(w', vs))
  {
    hide Alike, Likewise;
  }

  // ----- leaving -----

  lemma {:induction false} AlikeReturns(w: World, w': World, c: nat, n: nat)
    requires Alike(w, w')
    ensures ReturnTo(w, c, n) == ReturnTo(w', c, n)
    decreases n
  {
    if n > 0 && c < |w.closures| && w.closures[c].parent.Some? {
      AlikeReturns(w, w', w.closures[c].parent.value, n - 1);
    }
  }

  lemma ReturnFits(c: Whole, x: Ctx, v: Value, locals: Locals, w: World, m: Memory)
    requires Live(c, x, locals, w, m) && ValueOk(c.p, w, v)
    ensures Fits(c, x, w, m, ReturnWith(x, v, w), ReturnName(x, v, m))
  {
    hide WorldOk, Home, Remembers, LocalsOk, Grown, ValueOk, LocalsHold, RegistersStay, Runs, ReturnTo, CodeOf;
    Sizes(c, w, m);
    NotMoved(c, w, m, x.clos);
    AlikeReturns(w, m.w, x.m.closure, |w.closures|);
  }

  // ----- values of arguments -----

  ghost predicate ValsFit(c: Whole, x: Ctx, w: World, m: Memory, r: Vals, q: NameVals) {
    match q
    case Values(vs, m') =>
      r.Vals? && r.vs == vs && ValuesOk(c.p, r.w, vs) && Live(c, x, r.locals, r.w, m') &&
      Moved(c, w, m, r.w, m', x.clos)
    case Halts(q') => q'.Unset? || (r.Stopped? && !q'.Gives? && Fits(c, x, w, m, r.r, q'))
  }

  lemma MovedTwice(c: Whole, w: World, m: Memory, w1: World, m1: Memory, w2: World, m2: Memory, k: nat)
    requires Moved(c, w, m, w1, m1, k) && Moved(c, w1, m1, w2, m2, k) && |m1.vars| == |w1.closures|
    ensures Moved(c, w, m, w2, m2, k)
  {
    hide Home;
    forall a, x | 0 <= a < |m.vars| && a != k && InRegisters(c.st, w.closures[a], x)
      ensures SameValue(m.vars[a], m2.vars[a], x)
    {
      assert InRegisters(c.st, w1.closures[a], x);
      assert SameValue(m.vars[a], m1.vars[a], x) && SameValue(m1.vars[a], m2.vars[a], x);
    }
  }

  /** A result reached after more was evaluated before. */
  lemma FitsOn(c: Whole, x: Ctx, w: World, m: Memory, l1: Locals, w1: World, m1: Memory, r: Res, q: NameRes)
    requires Live(c, x, l1, w1, m1) && Moved(c, w, m, w1, m1, x.clos) && Fits(c, x, w1, m1, r, q)
    ensures Fits(c, x, w, m, r, q)
  {
    hide Live, Common, Moved, ValueOk, CodeOf;
    SizesLive(c, x, l1, w1, m1);
    match q
    case Gives(_, m2) => MovedTwice(c, w, m, w1, m1, r.w, m2, x.clos);
    case Throws(_, m2) => MovedTwice(c, w, m, w1, m1, r.w, m2, x.clos);
    case Ends(_, m2) => MovedTwice(c, w, m, w1, m1, r.w, m2, x.clos);
    case _ =>
  }

  lemma SizesLive(c: Whole, x: Ctx, l: Locals, w: World, m: Memory)
    requires Live(c, x, l, w, m)
    ensures |m.vars| == |w.closures| && ClosuresOk(c.p, w) && Common(c, w, m) && Runs(c.p, x, w)
  {
    hide Common, Runs, LocalsOk, LocalsHold, CodeOf;
    Sizes(c, w, m);
  }

  lemma ValsOn(c: Whole, x: Ctx, w: World, m: Memory, l1: Locals, w1: World, m1: Memory, r: Vals, q: NameVals)
    requires Live(c, x, l1, w1, m1) && Moved(c, w, m, w1, m1, x.clos) && ValsFit(c, x, w1, m1, r, q)
    ensures ValsFit(c, x, w, m, r, q)
  {
    hide Live, Common, Moved, ValuesOk, Fits, CodeOf;
    SizesLive(c, x, l1, w1, m1);
    match q
    case Values(_, m2) => MovedTwice(c, w, m, w1, m1, r.w, m2, x.clos);
    case Halts(q') => if !q'.Unset? { FitsOn(c, x, w, m, l1, w1, m1, r.r, q'); }
  }

  /** The scopes around the running activation stay the same. */
  lemma {:induction false} OwnersGrown(p: Program, w: World, w': World, i: nat)
    requires Grown(w, w') && i < |w.closures|
    ensures Owners(w', i) == Owners(w, i)
    decreases i
  {
    if w.closures[i].parent.Some? && w.closures[i].parent.value < i {
      OwnersGrown(p, w, w', w.closures[i].parent.value);
    }
  }

  // ----- what is known of a node of the running code -----

  /** The nodes that are evaluated: their names are resolved, and their blocks are in the running code's pool. */
  ghost predicate Known(c: Whole, e: Node, stack: seq<nat>, codes: seq<Template>)
    decreases e
  {
    match e
    case Seq(a, b) => Known(c, a, stack, codes) && Known(c, b, stack, codes)
    case Self(id) => Resolved(c.g, c.st, id, "self", stack)
    case Named(id, name) => id in c.st.places ==> Resolved(c.g, c.st, id, name, stack)
    case Assign(id, name, v) =>
      Known(c, v, stack, codes) && Resolved(c.g, c.st, id, name, stack) && name != "self"
    case AssignOp(id, name, _, v) =>
      Known(c, v, stack, codes) && Resolved(c.g, c.st, id, name, stack) && name != "self"
    case Not(v) => Known(c, v, stack, codes)
    case And(a, b) => Known(c, a, stack, codes) && Known(c, b, stack, codes)
    case IfCond(a, b, d) =>
      Known(c, a, stack, codes) && Known(c, b, stack, codes) && (d.Some? ==> Known(c, d.value, stack, codes))
    case Unless(a, b) => Known(c, a, stack, codes) && Known(c, b, stack, codes)
    case While(a, b) => Known(c, a, stack, codes) && Known(c, b, stack, codes)
    case Tuple(args) => AllKnown(c, args, stack, codes)
    case List(args) => AllKnown(c, args, stack, codes)
    case Send(id, name, selfLess, recv, args) =>
      (if selfLess && id in c.st.places then Resolved(c.g, c.st, id, name, stack)
       else Known(c, recv, stack, codes)) && AllKnown(c, args, stack, codes)
    case Raise(v) => Known(c, v, stack, codes)
    case Try(id, body, handler, name, ty) =>
      Known(c, body, stack, codes) && Known(c, handler, stack, codes) &&
      (name.Some? && ty.Some? ==>
         Known(c, ty.value, stack, codes) && Resolved(c.g, c.st, id, name.value, stack) && name.value != "self")
    case Return(v) => Known(c, v, stack, codes)
    case Lambda(s) => Template(s, Block) in codes
    case Def(_, s) => Template(s, Method) in codes
    case _ => true
  }

  ghost predicate AllKnown(c: Whole, es: Nodes, stack: seq<nat>, codes: seq<Template>)
    decreases es
  {
    match es
    case NoNodes => true
    case More(e, rest) => Known(c, e, stack, codes) && AllKnown(c, rest, stack, codes)
  }

  /** The blocks and methods of the nodes that are evaluated are in the pool. */
  ghost predicate Pooled(lay: Layout, e: Node, codes: seq<Template>)
    decreases e
  {
    match e
    case Seq(a, b) => Pooled(lay, a, codes) && Pooled(lay, b, codes)
    case Assign(_, _, v) => Pooled(lay, v, codes)
    case AssignOp(_, _, _, v) => Pooled(lay, v, codes)
    case Not(v) => Pooled(lay, v, codes)
    case And(a, b) => Pooled(lay, a, codes) && Pooled(lay, b, codes)
    case IfCond(a, b, d) => Pooled(lay, a, codes) && Pooled(lay, b, codes) && (d.Some? ==> Pooled(lay, d.value, codes))
    case Unless(a, b) => Pooled(lay, a, codes) && Pooled(lay, b, codes)
    case While(a, b) => Pooled(lay, a, codes) && Pooled(lay, b, codes)
    case Tuple(args) => AllPooled(lay, args, codes)
    case List(args) => AllPooled(lay, args, codes)
    case Send(_, _, _, recv, args) => (Markov(lay, e) || Pooled(lay, recv, codes)) && AllPooled(lay, args, codes)
    case Raise(v) => Pooled(lay, v, codes)
    case Try(_, body, handler, name, ty) =>
      Pooled(lay, body, codes) && Pooled(lay, handler, codes) &&
      (name.Some? && ty.Some? ==> Pooled(lay, ty.value, codes))
    case Return(v) => Pooled(lay, v, codes)
    case Lambda(s) => Template(s, Block) in codes
    case Def(_, s) => Template(s, Method) in codes
    case _ => true
  }

  ghost predicate AllPooled(lay: Layout, es: Nodes, codes: seq<Template>)
    decreases es
  {
    match es
    case NoNodes => true
    case More(e, rest) => Pooled(lay, e, codes) && AllPooled(lay, rest, codes)
  }

  /** What a node leaves in the pool stays there. */
  lemma {:induction false} EmitPooled(lay: Layout, blk: bool, e: Node, t: int, b: Buf, codes: seq<Template>)
    requires Emit(lay, blk, e, t, b).codes <= codes
    ensures Pooled(lay, e, codes)
    decreases e, 1
  {
    match e
    case Seq(x, y) => TwoPooled(lay, blk, e, x, y, t, b, Emit(lay, blk, x, t, b), codes);
    case And(x, y) =>
      TwoPooled(lay, blk, e, x, y, t, b, Push(Emit(lay, blk, x, t, b), [JMPIF, t, Size(lay, y)]), codes);
    case Unless(x, y) =>
      TwoPooled(lay, blk, e, x, y, t, b, Push(Emit(lay, blk, x, t, b), [JMPIT, t, Size(lay, y)]), codes);
    case While(x, y) =>
      TwoPooled(lay, blk, e, x, y, t, b, Push(Emit(lay, blk, x, t, b), [JMPIF, t, Size(lay, y) + 2]), codes);
    case IfCond(_, _, _) => IfPooled(lay, blk, e, t, b, codes);
    case Assign(_, _, v) => EmitPooled(lay, blk, v, t, b, codes);
    case AssignOp(id, _, _, v) => EmitPooled(lay, blk, v, t + 1, PushGet(b, lay.At(id), t), codes);
    case Not(v) => EmitPooled(lay, blk, v, t, b, codes);
    case Raise(v) => EmitPooled(lay, blk, v, t, b, codes);
    case Return(v) => EmitPooled(lay, blk, v, t, b, codes);
    case Tuple(args) => EmitAllPooled(lay, blk, args, t, b, codes);
    case List(args) => EmitAllPooled(lay, blk, args, t, b, codes);
    case Send(_, _, _, _, _) => SendPooled(lay, blk, e, t, b, codes);
    case Try(_, _, _, _, _) => TryPooled(lay, blk, e, t, b, codes);
    case Lambda(s) => NewestPooled(b, Template(s, Block));
    case Def(_, s) => NewestPooled(b, Template(s, Method));
    case _ =>
  }

  lemma NewestPooled(b: Buf, c: Template)
    ensures c in b.codes + [c]
  {}

  lemma {:induction false} TwoPooled(lay: Layout, blk: bool, e: Node, x: Node, y: Node, t: int, b: Buf, b1: Buf,
                                     codes: seq<Template>)
    requires x < e && y < e && b1.codes == Emit(lay, blk, x, t, b).codes && Emit(lay, blk, y, t, b1).codes <= codes
    ensures Pooled(lay, x, codes) && Pooled(lay, y, codes)
    decreases e, 0, 0
  {
    hide Emit, Pooled;
    EmitGrows(lay, blk, y, t, b1);
    EmitPooled(lay, blk, x, t, b, codes);
    EmitPooled(lay, blk, y, t, b1, codes);
  }

  lemma {:induction false} IfPooled(lay: Layout, blk: bool, e: Node, t: int, b: Buf, codes: seq<Template>)
    requires e.IfCond? && Emit(lay, blk, e, t, b).codes <= codes
    ensures Pooled(lay, e, codes)
    decreases e, 0, 1
  {
    hide CodeOf;
    match e
    case IfCond(x, y, None) =>
      TwoPooled(lay, blk, e, x, y, t, b, Push(Emit(lay, blk, x, t, b), [JMPIF, t, Size(lay, y)]), codes);
    case IfCond(x, y, Some(z)) =>
      var b1 := Push(Emit(lay, blk, x, t, b), [JMPIF, t, Size(lay, y) + 2]);
      var b2 := Push(Emit(lay, blk, y, t, b1), [JMPF, Size(lay, z)]);
      EmitGrows(lay, blk, z, t, b2);
      TwoPooled(lay, blk, e, x, y, t, b, b1, codes);
      EmitPooled(lay, blk, z, t, b2, codes);
  }

  lemma {:induction false} SendPooled(lay: Layout, blk: bool, e: Node, t: int, b: Buf, codes: seq<Template>)
    requires e.Send? && Emit(lay, blk, e, t, b).codes <= codes
    ensures Pooled(lay, e, codes)
    decreases e, 0
  {
    var b1 := if Markov(lay, e) then PushGet(b, lay.At(e.id), t) else Emit(lay, blk, e.recv, t, b);
    EmitArgsGrows(lay, blk, e.args, t + 1, b1);
    EmitAllPooled(lay, blk, e.args, t + 1, b1, codes);
    if !Markov(lay, e) { EmitPooled(lay, blk, e.recv, t, b, codes); }
  }

  lemma {:induction false} TryPooled(lay: Layout, blk: bool, e: Node, t: int, b: Buf, codes: seq<Template>)
    requires e.Try? && Emit(lay, blk, e, t, b).codes <= codes
    ensures Pooled(lay, e, codes)
    decreases e, 0
  {
    hide Size, CodeOf;
    var b1 := TryBody(lay, blk, e, t, b);
    if e.excName.Some? && e.excType.Some? {
      var b2 := TryTyped(lay, blk, e, t, b1);
      TryTypedGrows(lay, blk, e, t, b1);
      EmitGrows(lay, blk, e.handler, t, b2);
      EmitPooled(lay, blk, e.handler, t, b2, codes);
      EmitPooled(lay, blk, e.excType.value, t + 1, b1, codes);
    } else {
      EmitGrows(lay, blk, e.handler, t, b1);
      EmitPooled(lay, blk, e.handler, t, b1, codes);
    }
    EmitPooled(lay, blk, e.body, t, Push(b, [REGE, t, |b.code| + Size(lay, e.body) + 6]), codes);
  }

  lemma {:induction false} EmitAllPooled(lay: Layout, blk: bool, es: Nodes, t: int, b: Buf, codes: seq<Template>)
    requires EmitArgs(lay, blk, es, t, b).codes <= codes
    ensures AllPooled(lay, es, codes)
    decreases es, 1
  {
    hide Emit, Pooled;
    match es
    case NoNodes =>
    case More(e, rest) =>
      var b1 := Emit(lay, blk, e, t, b);
      EmitArgsGrows(lay, blk, rest, t + 1, b1);
      EmitPooled(lay, blk, e, t, b, codes);
      EmitAllPooled(lay, blk, rest, t + 1, b1, codes);
  }

  lemma CodePooled(lay: Layout, t: Template)
    ensures Pooled(lay, t.scope.body, CodeOf(lay, t).codes)
  {
    hide Emit, EmitProlog, Pooled, TempBase;
    EmitPooled(lay, t.kind == Block, t.scope.body, TempBase(lay, t.scope, t.kind),
               EmitProlog(lay, t.scope, Emission.Empty), CodeOf(lay, t).codes);
  }

  /** Resolved and well made, and its code in the pool: all that is needed to know the node. */
  lemma {:induction false} KnownTree(c: Whole, e: Node, stack: seq<nat>, codes: seq<Template>)
    requires Proper(c) && RA.Ready(c.g, c.st, e, stack) && Pooled(c.p.lay, e, codes)
    ensures Known(c, e, stack, codes)
    decreases e
  {
    hide Proper, RA.Ready, RA.AllReady, Weight, UseOf, LayoutOf, Resolved;
    if ScopeOf(e).None? {
      RA.ReadyParts(c.g, c.st, e, stack);
      UseKnown(c, e, stack);
      match e
      case Seq(x, y) => KnownTwo(c, e, x, y, stack, codes);
      case And(x, y) => KnownTwo(c, e, x, y, stack, codes);
      case Unless(x, y) => KnownTwo(c, e, x, y, stack, codes);
      case While(x, y) => KnownTwo(c, e, x, y, stack, codes);
      case IfCond(a, x, y) =>
        RA.FirstReady(c.g, c.st, a, Parts(e).rest, stack);
        RA.FirstReady(c.g, c.st, x, Parts(e).rest.rest, stack);
        KnownTree(c, a, stack, codes);
        KnownTree(c, x, stack, codes);
        if y.Some? {
          RA.FirstReady(c.g, c.st, y.value, NoNodes, stack);
          KnownTree(c, y.value, stack, codes);
        }
      case Tuple(args) => KnownList(c, args, stack, codes);
      case List(args) => KnownList(c, args, stack, codes);
      case Send(id, _, selfLess, recv, args) =>
        AtPlaces(c, id);
        RA.FirstReady(c.g, c.st, recv, args, stack);
        if !(selfLess && id in c.st.places) { KnownTree(c, recv, stack, codes); }
        KnownList(c, args, stack, codes);
      case Try(_, body, handler, name, ty) =>
        RA.FirstReady(c.g, c.st, body, Parts(e).rest, stack);
        KnownTree(c, body, stack, codes);
        if ty.Some? {
          RA.FirstReady(c.g, c.st, ty.value, More(handler, NoNodes), stack);
          if name.Some? { KnownTree(c, ty.value, stack, codes); }
        }
        RA.FirstReady(c.g, c.st, handler, NoNodes, stack);
        KnownTree(c, handler, stack, codes);
      case Assign(_, _, v) => KnownOne(c, e, v, stack, codes);
      case AssignOp(_, _, _, v) => KnownOne(c, e, v, stack, codes);
      case Not(v) => KnownOne(c, e, v, stack, codes);
      case Raise(v) => KnownOne(c, e, v, stack, codes);
      case Return(v) => KnownOne(c, e, v, stack, codes);
      case _ =>
    }
  }

  /** What is known of a node's own name. */
  lemma UseKnown(c: Whole, e: Node, stack: seq<nat>)
    requires RA.Ready(c.g, c.st, e, stack) && ScopeOf(e).None?
    ensures match e
      case Self(id) => Resolved(c.g, c.st, id, "self", stack)
      case Named(id, name) => id in c.st.places ==> Resolved(c.g, c.st, id, name, stack)
      case Send(id, name, selfLess, _, _) => selfLess && id in c.st.places ==> Resolved(c.g, c.st, id, name, stack)
      case Assign(id, name, _) => Resolved(c.g, c.st, id, name, stack) && name != "self"
      case AssignOp(id, name, _, _) => Resolved(c.g, c.st, id, name, stack) && name != "self"
      case Try(id, _, _, name, _) =>
        name.Some? ==> Resolved(c.g, c.st, id, name.value, stack) && name.value != "self"
      case _ => true
  {
    hide Resolved, RA.Ready;
    RA.UseReady(c.g, c.st, e, stack);
  }

  lemma {:induction false} KnownOne(c: Whole, e: Node, x: Node, stack: seq<nat>, codes: seq<Template>)
    requires Proper(c) && RA.AllReady(c.g, c.st, More(x, NoNodes), stack) && Pooled(c.p.lay, x, codes) && x < e
    ensures Known(c, x, stack, codes)
    decreases e, 0
  {
    hide Proper, RA.Ready, RA.AllReady, Pooled, Known;
    RA.FirstReady(c.g, c.st, x, NoNodes, stack);
    KnownTree(c, x, stack, codes);
  }

  lemma {:induction false} KnownTwo(c: Whole, e: Node, x: Node, y: Node, stack: seq<nat>, codes: seq<Template>)
    requires Proper(c) && RA.AllReady(c.g, c.st, More(x, More(y, NoNodes)), stack)
    requires Pooled(c.p.lay, x, codes) && Pooled(c.p.lay, y, codes) && x < e && y < e
    ensures Known(c, x, stack, codes) && Known(c, y, stack, codes)
    decreases e, 0
  {
    hide Proper, RA.Ready, RA.AllReady, Pooled, Known;
    RA.FirstReady(c.g, c.st, x, More(y, NoNodes), stack);
    RA.FirstReady(c.g, c.st, y, NoNodes, stack);
    KnownTree(c, x, stack, codes);
    KnownTree(c, y, stack, codes);
  }

  lemma {:induction false} KnownList(c: Whole, es: Nodes, stack: seq<nat>, codes: seq<Template>)
    requires Proper(c) && RA.AllReady(c.g, c.st, es, stack) && AllPooled(c.p.lay, es, codes)
    ensures AllKnown(c, es, stack, codes)
    decreases es
  {
    hide Proper, RA.Ready, RA.AllReady, Pooled, Known;
    match es
    case NoNodes =>
    case More(e, rest) =>
      RA.FirstReady(c.g, c.st, e, rest, stack);
      KnownTree(c, e, stack, codes);
      KnownList(c, rest, stack, codes);
  }

  // ----- nodes -----

  /** The node stands in the running code of a live activation. */
  ghost predicate Reached(c: Whole, x: Ctx, e: Node, locals: Locals, w: World, m: Memory) {
    Proper(c) && Live(c, x, locals, w, m) && Known(c, e, Owners(w, x.clos), CodeOf(c.p.lay, x.m.code).codes)
  }

  ghost predicate AllReached(c: Whole, x: Ctx, es: Nodes, locals: Locals, w: World, m: Memory) {
    Proper(c) && Live(c, x, locals, w, m) && AllKnown(c, es, Owners(w, x.clos), CodeOf(c.p.lay, x.m.code).codes)
  }

  /** The next node, after one that gave a value. */
  lemma Next(c: Whole, x: Ctx, e: Node, locals: Locals, w: World, m: Memory, l1: Locals, w1: World, m1: Memory)
    requires Proper(c) && Live(c, x, locals, w, m) && Live(c, x, l1, w1, m1) && Moved(c, w, m, w1, m1, x.clos)
    requires Known(c, e, Owners(w, x.clos), CodeOf(c.p.lay, x.m.code).codes)
    ensures Reached(c, x, e, l1, w1, m1)
  {
    hide Proper, Live, Known, CodeOf, Owners, Common, RegistersStay, Grown;
    SizesLive(c, x, locals, w, m);
    OwnersGrown(c.p, w, w1, x.clos);
  }

  lemma NextAll(c: Whole, x: Ctx, es: Nodes, locals: Locals, w: World, m: Memory, l1: Locals, w1: World, m1: Memory)
    requires Proper(c) && Live(c, x, locals, w, m) && Live(c, x, l1, w1, m1) && Moved(c, w, m, w1, m1, x.clos)
    requires AllKnown(c, es, Owners(w, x.clos), CodeOf(c.p.lay, x.m.code).codes)
    ensures AllReached(c, x, es, l1, w1, m1)
  {
    hide Proper, Live, AllKnown, CodeOf, Owners, Common, RegistersStay, Grown;
    SizesLive(c, x, locals, w, m);
    OwnersGrown(c.p, w, w1, x.clos);
  }

  lemma {:induction false} SeqFits(c: Whole, x: Ctx, e: Node, locals: Locals, w: World, m: Memory, fuel: nat)
    requires e.Seq? && Reached(c, x, e, locals, w, m)
    ensures Fits(c, x, w, m, Eval(c.p, x, e, locals, w, fuel), EvalName(c.Source(), x, e, m, fuel))
    decreases fuel, 1, e, 0
  {
    hide Proper, Live, Moved, CodeOf, Owners, Common, ValueOk;
    var p := c.Source();
    EvalFits(c, x, e.first, locals, w, m, fuel);
    var r, q := Eval(c.p, x, e.first, locals, w, fuel), EvalName(p, x, e.first, m, fuel);
    if q.Gives? {
      Next(c, x, e.second, locals, w, m, r.locals, r.w, q.m);
      EvalFits(c, x, e.second, r.locals, r.w, q.m, fuel);
      FitsOn(c, x, w, m, r.locals, r.w, q.m, Eval(c.p, x, e.second, r.locals, r.w, fuel),
             EvalName(p, x, e.second, q.m, fuel));
    }
  }

  lemma AtPlaces(c: Whole, id: nat)
    requires Proper(c)
    ensures c.p.lay.At(id).Some? <==> id in c.st.places
    ensures id in c.Source().depths <==> id in c.st.places
  {
    hide Inv, ScopeResolved, GlobalsFit, SaneRuntime, Blind, CodeIn, Roomy, Injective, Depths, LocOf, DepthOf;
  }

  /** The scopes around the activation are those it started in. */
  lemma SameOwners(c: Whole, x: Ctx, locals: Locals, w: World, m: Memory, w1: World, m1: Memory)
    requires Live(c, x, locals, w, m) && Moved(c, w, m, w1, m1, x.clos)
    ensures Owners(w1, x.clos) == Owners(w, x.clos)
  {
    hide Common, RegistersStay, Grown, Owners, LocalsHold, CodeOf;
    OwnersGrown(c.p, w, w1, x.clos);
  }

  lemma RememberFits(c: Whole, x: Ctx, id: nat, name: string, locals: Locals, w: World, m: Memory, r: Res, q: NameRes)
    requires Proper(c) && Live(c, x, locals, w, m) && Fits(c, x, w, m, r, q)
    requires Resolved(c.g, c.st, id, name, Owners(w, x.clos)) && name != "self"
    ensures Fits(c, x, w, m, WriteTo(x, c.p.lay.At(id), r), RememberIn(c.Source(), x, id, name, q))
  {
    hide Proper, Live, Moved, Owners, Common, Resolved, Write, Remember, ValueOk, Depths;
    if q.Gives? {
      SameOwners(c, x, locals, w, m, r.w, q.m);
      WriteFits(c, x, id, name, r.v, r.locals, r.w, q.m);
      FitsOn(c, x, w, m, r.locals, r.w, q.m, Write(x, c.p.lay.At(id), r.v, r.locals, r.w),
             Remember(c.Source(), x, id, name, q.v, q.m));
    }
  }

  lemma LeafFits(c: Whole, x: Ctx, e: Node, locals: Locals, w: World, m: Memory, fuel: nat)
    requires e.Number? || e.Nil? || e.True? || e.False? || e.LiteralString? || e.Lambda?
    requires Reached(c, x, e, locals, w, m)
    ensures Fits(c, x, w, m, Eval(c.p, x, e, locals, w, fuel), EvalName(c.Source(), x, e, m, fuel))
  {
    hide Proper, Common, CodeOf, Owners, LocalsOk, LocalsHold, RegistersStay, Grown;
    SizesLive(c, x, locals, w, m);
    NotMoved(c, w, m, x.clos);
  }

  lemma {:induction false} CallNameFits(c: Whole, x: Ctx, recv: Value, name: string, args: seq<Value>, locals: Locals,
                                        w: World, m: Memory, fuel: nat)
    requires Proper(c) && Live(c, x, locals, w, m) && ValueOk(c.p, w, recv) && ValuesOk(c.p, w, args)
    ensures Fits(c, x, w, m, EvalCall(c.p, x, recv, name, args, locals, w, fuel),
                 CallName(c.Source(), x, recv, name, args, m, fuel))
    decreases fuel, 0, 1
  {
    hide Proper, Live, Common, CallOf, Called, CallFits, Fits, Finish, Taken, ValueOk, CodeOf;
    SizesLive(c, x, locals, w, m);
    CalledFits(c, recv, name, args, w, m, fuel);
    TakenFits(c, x, locals, w, m, CallOf(c.p, recv, name, args, w, fuel),
              Called(c.Source(), recv, name, args, m, fuel));
  }

  lemma {:induction false} CalledFits(c: Whole, recv: Value, name: string, args: seq<Value>, w: World, m: Memory,
                                      fuel: nat)
    requires Proper(c) && Common(c, w, m) && ValueOk(c.p, w, recv) && ValuesOk(c.p, w, args)
    ensures CallFits(c, w, m, CallOf(c.p, recv, name, args, w, fuel),
                     Called(c.Source(), recv, name, args, m, fuel))
    decreases fuel, 0, 0
  {
    hide Proper, WorldOk, Remembers, Moved, Grown, Activate, RunName, ValueOk, Alike, MethodOk, SaneRuntime, Blind,
         Emit;
    SaneOf(c);
    SaneMakes(c.p, w);
    BlindMakes(c.p.env, w, m.w);
    FindsAlike(c.p, w, m.w, recv, name, args);
    match c.p.env.find(w, recv, name)
    case NotFound => HeapMoved(c, w, m, c.p.env.missing(w, name).1, c.p.env.missing(m.w, name).1, |w.closures|);
    case Native =>
      HeapMoved(c, w, m, c.p.env.native(w, recv, name, args).w, c.p.env.native(m.w, recv, name, args).w, |w.closures|);
    case Bytecode(f, checked) =>
      if checked && Arity(f) > 0 && |args| != Arity(f) {
        HeapMoved(c, w, m, c.p.env.badArity(w, Arity(f), |args|).1, c.p.env.badArity(m.w, Arity(f), |args|).1,
                  |w.closures|);
      } else if fuel > 0 {
        RunFits(c, f, recv, args, w, m, fuel - 1);
      }
  }

  /** Look-up and native methods, on both sides. */
  lemma FindsAlike(p: Program, w: World, w': World, recv: Value, name: string, args: seq<Value>)
    requires SaneRuntime(p) && Blind(p.env) && WorldOk(p, w) && Alike(w, w')
    requires ValueOk(p, w, recv) && ValuesOk(p, w, args)
    ensures p.env.find(w', recv, name) == p.env.find(w, recv, name)
    ensures p.env.find(w, recv, name).Bytecode? ==> MethodOk(p, w, p.env.find(w, recv, name).m)
    ensures var r, r' := p.env.native(w, recv, name, args), p.env.native(w', recv, name, args);
      r.o == r'.o && Beside(w, r.w, r'.w) && WorldOk(p, r.w) && Grown(w, r.w) && OutcomeOk(p, r.w, r.o)
  {
    hide WorldOk, Alike, MethodOk, Grown, ValueOk, ValuesOk, MadeOk, OutcomeOk, Likewise, CodeOf;
    assert NativeOk(p, w, p.env.native(w, recv, name, args));
  }

  // ----- activations -----

  /** A variable kept in a register gets its value without a trace in any closure. */
  lemma RegisterRemembers(c: Whole, a: nat, name: string, v: Value, w: World, m: Memory)
    requires Remembers(c, w, m.vars) && a < |w.closures| && InRegisters(c.st, w.closures[a], name)
    ensures Remembers(c, w, m.vars[a := m.vars[a][name := v]])
  {
    hide Home;
    var vars := m.vars[a := m.vars[a][name := v]];
    forall b, y | 0 <= b < |vars| && y in vars[b] ensures SlotHolds(c, w, vars, b, y) {
      if b != a || y != name { assert SlotHolds(c, w, m.vars, b, y); }
    }
  }

  /** Where a parameter lives. */
  lemma ParameterHome(c: Whole, scope: nat, a: Argument, position: int)
    requires Proper(c) && ScopeTracker.Stands(c.st, scope, a, position)
    ensures c.p.lay.At(a.id) == Home(c.st, scope, a.name)
    ensures Home(c.st, scope, a.name).Some?
    ensures Home(c.st, scope, a.name).value.Reg? ==> Home(c.st, scope, a.name) == Some(Reg(position))
  {
    hide Inv, ScopeResolved, GlobalsFit, SaneRuntime, Blind, CodeIn, Roomy, Injective, Depths, SameDepths;
  }

  /** The activation of `x` has been made; its parameters are being stored. */
  ghost predicate Begun(c: Whole, x: Ctx, w: World, m: Memory) {
    Proper(c) && Common(c, w, m) && Runs(c.p, x, w) && x.clos < |m.vars|
  }

  function Bound(m: Memory, a: nat, name: string, v: Value): Memory
    requires a < |m.vars|
  {
    m.(vars := m.vars[a := m.vars[a][name := v]])
  }

  lemma StoreFits(c: Whole, x: Ctx, a: Argument, position: int, v: Value, w: World, m: Memory)
    requires Begun(c, x, w, m) && ValueOk(c.p, w, v)
    requires ScopeTracker.Stands(c.st, x.m.code.scope.id, a, position)
    ensures var r := StoreArgument(c.p, x, a, Some(v), w);
      r.Norm? && Begun(c, x, r.w, Bound(m, x.clos, a.name, v)) && Grown(w, r.w) && |r.w.closures| == |w.closures|
  {
    hide Proper, WorldOk, Home, SetAtDepth, ClosureOk, LayoutOf, Remembers, Grown, ValueOk, ScopeTracker.Stands,
         CodeOf, SaneRuntime, Blind;
    Sizes(c, w, m);
    var scope := x.m.code.scope.id;
    ParameterHome(c, scope, a, position);
    NoGrowth(w);
    match Home(c.st, scope, a.name).value
    case Reg(_) => RegisterRemembers(c, x.clos, a.name, v, w, m);
    case Clo(_, i) =>
      SlotInRange(c, w, x.clos, a.name, i);
      SetsOwn(w, x.clos, i, v);
      SaneOf(c);
      GlobalsApart(c);
      WriteOk(c.p, w, x.clos, 0, i, v);
      SlotRemembers(c, x, x.clos, i, a.name, v, w, m);
      RunsGrown(c.p, x, w, Stored(w, x.clos, i, v));
  }

  lemma BegunFacts(c: Whole, x: Ctx, w: World, m: Memory)
    requires Begun(c, x, w, m)
    ensures Proper(c) && x.clos < |m.vars| && x.clos < |w.closures| && Common(c, w, m) && Runs(c.p, x, w)
  {
    hide Proper, Common, CodeOf;
  }

  lemma SetsOwn(w: World, k: nat, i: int, v: Value)
    requires k < |w.closures| && 0 <= i < |w.closures[k].values|
    ensures SetAtDepth(w, k, 0, i, v) == Some(Stored(w, k, i, v))
  {}

  lemma GlobalsApart(c: Whole)
    requires Proper(c)
    ensures Injective(c.g.globals)
  {}

  lemma {:induction false} StoresFit(c: Whole, x: Ctx, i: nat, args: seq<Value>, vars: map<string, Value>, w: World,
                                     m: Memory)
    returns (w': World)
    requires Begun(c, x, w, m) && ValuesOk(c.p, w, args) && i <= |x.m.code.scope.args| <= |args|
    requires forall j :: 0 <= j < |x.m.code.scope.args| ==>
      ScopeTracker.Stands(c.st, x.m.code.scope.id, x.m.code.scope.args[j], j)
    requires m.vars[x.clos] == Parameters(vars, x.m.code.scope.args[..i], args)
    ensures var params := x.m.code.scope.args;
      StoreArguments(c.p, x, params, i, args, w) == Norm(NilV, [], w') && Grown(w, w') &&
      |w'.closures| == |w.closures| &&
      Begun(c, x, w', m.(vars := m.vars[x.clos := Parameters(vars, params, args)]))
    decreases |x.m.code.scope.args| - i
  {
    hide Begun, Grown, ValueOk, ScopeTracker.Stands, StoreArgument, Proper, Common, Runs;
    BegunFacts(c, x, w, m);
    var params := x.m.code.scope.args;
    if i == |params| {
      w' := w;
      NoGrowth(w);
      assert params[..i] == params;
      assert m.vars[x.clos := m.vars[x.clos]] == m.vars;
    } else {
      StoreFits(c, x, params[i], i, args[i], w, m);
      var r := StoreArgument(c.p, x, params[i], Some(args[i]), w);
      var m1 := Bound(m, x.clos, params[i].name, args[i]);
      assert params[..i + 1][..i] == params[..i];
      ValuesGrown(c.p, w, r.w, args);
      w' := StoresFit(c, x, i + 1, args, vars, r.w, m1);
      GrownOn(w, r.w, w');
      assert m1.vars[x.clos := Parameters(vars, params, args)] == m.vars[x.clos := Parameters(vars, params, args)];
    }
  }

  lemma GrownOn(w: World, w1: World, w2: World)
    requires Grown(w, w1) && Grown(w1, w2)
    ensures Grown(w, w2)
  {}

  lemma ValuesGrown(p: Program, w: World, w': World, vs: seq<Value>)
    requires Grown(w, w') && ValuesOk(p, w, vs)
    ensures ValuesOk(p, w', vs)
  {
    hide ValueOk, Grown;
    forall i | 0 <= i < |vs| ensures ValueOk(p, w', vs[i]) { GrownMethods(p, w, w', vs[i]); }
  }

  /** A new activation, before its parameters are stored. */
  lemma MadeBegun(c: Whole, f: MethodRef, self: Value, w: World, m: Memory)
    requires Proper(c) && Common(c, w, m) && MethodOk(c.p, w, f) && ValueOk(c.p, w, self)
    ensures var x := Ctx(self, |w.closures|, f);
      Begun(c, x, WithClosure(c.p, f, w), Made(f, map[], m)) && Grown(w, WithClosure(c.p, f, w))
  {
    hide Proper, WorldOk, Grown, ValueOk, Home, MethodOk, SaneRuntime, Blind;
    SaneOf(c);
    Sizes(c, w, m);
    WithClosureOk(c.p, f, w);
    var w1, m1 := WithClosure(c.p, f, w), Made(f, map[], m);
    GrownMethods(c.p, w, w1, self);
    forall a, y | 0 <= a < |m1.vars| && y in m1.vars[a] ensures SlotHolds(c, w1, m1.vars, a, y) {
      assert SlotHolds(c, w, m.vars, a, y);
    }
  }

  lemma {:induction false} PrologFits(c: Whole, f: MethodRef, self: Value, args: seq<Value>, w: World, m: Memory)
    returns (w': World)
    requires Proper(c) && Common(c, w, m) && MethodOk(c.p, w, f) && ValueOk(c.p, w, self) && ValuesOk(c.p, w, args)
    requires |f.code.scope.args| <= |args|
    ensures ParametersStand(c.st, f.code.scope)
    ensures var x := Ctx(self, |w.closures|, f);
      Prolog(c.p, x, args, WithClosure(c.p, f, w)) == Norm(NilV, [], w') && Grown(w, w') &&
      |w'.closures| == |w.closures| + 1 && Begun(c, x, w', Made(f, Variables(f.code.scope, self, args), m))
  {
    hide Begun, Grown, ValueOk, ScopeTracker.Stands, StoreArgument, Proper, Common, MethodOk, CodeOf;
    var x, s := Ctx(self, |w.closures|, f), f.code.scope;
    var w1, m1 := WithClosure(c.p, f, w), Made(f, map[], m);
    Sizes(c, w, m);
    MadeBegun(c, f, self, w, m);
    BegunFacts(c, x, w1, m1);
    Sizes(c, w1, m1);
    StandsOf(c, x, w1);
    ValuesGrown(c.p, w, w1, args);
    var vars: map<string, Value> := if s.self.Some? then map[s.self.value.name := self] else map[];
    var w2, m2 := w1, m1;
    if s.self.Some? {
      GrownMethods(c.p, w, w1, self);
      StoreFits(c, x, s.self.value, -1, self, w1, m1);
      w2, m2 := StoreArgument(c.p, x, s.self.value, Some(self), w1).w, Bound(m1, x.clos, s.self.value.name, self);
      ValuesGrown(c.p, w1, w2, args);
      GrownOn(w, w1, w2);
      assert map[][s.self.value.name := self] == vars;
    }
    assert m2.vars[x.clos] == vars == Parameters(vars, s.args[..0], args);
    w' := StoresFit(c, x, 0, args, vars, w2, m2);
    GrownOn(w, w2, w');
    assert m2.(vars := m2.vars[x.clos := Variables(s, self, args)]) == Made(f, Variables(s, self, args), m);
  }

  ghost predicate ParametersStand(st: Tracking, s: Scope) {
    (forall i :: 0 <= i < |s.args| ==> ScopeTracker.Stands(st, s.id, s.args[i], i)) &&
    (s.self.Some? ==> ScopeTracker.Stands(st, s.id, s.self.value, -1))
  }

  /** A parameter map holds what was there before, or a parameter's argument. */
  lemma {:induction false} ParameterOf(vars: map<string, Value>, params: seq<Argument>, args: seq<Value>, y: string)
    returns (i: int)
    requires |params| <= |args| && y in Parameters(vars, params, args)
    ensures if i < 0 then y in vars && Parameters(vars, params, args)[y] == vars[y]
      else i < |params| && params[i].name == y && Parameters(vars, params, args)[y] == args[i]
    decreases |params|
  {
    if params == [] {
      i := -1;
    } else {
      var n := |params| - 1;
      if params[n].name == y { i := n; } else { i := ParameterOf(vars, params[..n], args, y); }
    }
  }

  /** The arguments are in the registers of their parameters. */
  lemma ArgumentsHold(c: Whole, x: Ctx, args: seq<Value>, w: World)
    requires Proper(c) && ClosuresOk(c.p, w) && Runs(c.p, x, w)
    requires |x.m.code.scope.args| <= |args| && ParametersStand(c.st, x.m.code.scope)
    ensures var s, n := x.m.code.scope, TempBase(c.p.lay, x.m.code.scope, x.m.code.kind);
      LocalsHold(c.st, s.id, InitialLocals(n, args), Variables(s, x.self, args), x.self)
  {
    hide Proper, ClosuresOk, Home, ScopeTracker.Stands, TempBase, Runs;
    var s, n := x.m.code.scope, TempBase(c.p.lay, x.m.code.scope, x.m.code.kind);
    var vars: map<string, Value> := if s.self.Some? then map[s.self.value.name := x.self] else map[];
    forall y | y in Variables(s, x.self, args)
      ensures RegisterHolds(c.st, s.id, InitialLocals(n, args), Variables(s, x.self, args), x.self, y)
    {
      var i := ParameterOf(vars, s.args, args, y);
      if i < 0 {
        ParameterHome(c, s.id, s.self.value, -1);
      } else {
        ParameterHome(c, s.id, s.args[i], i);
        if Home(c.st, s.id, y) == Some(Reg(i)) { ParameterRoom(c, x, w, y, i); }
      }
    }
  }

  lemma ParameterRoom(c: Whole, x: Ctx, w: World, y: string, r: int)
    requires Proper(c) && ClosuresOk(c.p, w) && Runs(c.p, x, w) && 0 <= r
    requires Home(c.st, x.m.code.scope.id, y) == Some(Reg(r))
    ensures r < TempBase(c.p.lay, x.m.code.scope, x.m.code.kind)
  {
    hide Inv, ScopeResolved, GlobalsFit, SaneRuntime, Blind, CodeIn, ClosuresOk, Depths, SameDepths, Home,
         RA.WellMade, TempBase, LayoutOf, CodeOf;
    OwnerIn(c.p, w, x.clos);
    assert Roomy(c.st, x.m.code);
    HomeKept(c.st, x.m.code.scope.id, y);
  }

  lemma InitialOk(p: Program, w: World, n: nat, args: seq<Value>)
    requires ValuesOk(p, w, args)
    ensures LocalsOk(p, w, InitialLocals(n, args))
  {
    hide ValueOk;
  }

  /** A call after its activation has ended. */
  lemma CallEnds(c: Whole, x: Ctx, w: World, m: Memory, vars: map<string, Value>, w1: World, k: Ast.Kind, r: Res,
                 q: NameRes)
    requires Common(c, w, m) && x.clos == |w.closures| && Grown(w, w1) && |w1.closures| == |w.closures| + 1
    requires Fits(c, x, w1, Made(x.m, vars, m), r, q)
    ensures CallFits(c, w, m, Exit(k, r), NameEvaluator.Left(k, q))
  {
    hide WorldOk, Alike, Remembers, Home, LocalsOk, LocalsHold, MethodOk, Runs, CodeOf;
    Sizes(c, w, m);
    if q.Gives? || q.Throws? || q.Ends? {
      var w2 := r.w;
      GrownOn(w, w1, w2);
      var m1, m2 := Made(x.m, vars, m), q.m;
      forall a, y | 0 <= a < |m.vars| && InRegisters(c.st, w.closures[a], y)
        ensures SameValue(m.vars[a], m2.vars[a], y)
      {
        assert InRegisters(c.st, w1.closures[a], y);
        assert SameValue(m1.vars[a], m2.vars[a], y);
      }
    }
  }

  lemma {:induction false} RunFits(c: Whole, f: MethodRef, self: Value, args: seq<Value>, w: World, m: Memory,
                                   fuel: nat)
    requires Proper(c) && Common(c, w, m) && MethodOk(c.p, w, f) && ValueOk(c.p, w, self) && ValuesOk(c.p, w, args)
    ensures CallFits(c, w, m, Activate(c.p, f, self, args, w, fuel), RunName(c.Source(), f, self, args, m, fuel))
    decreases fuel, 2
  {
    hide Proper, Common, MethodOk, ValueOk, ValuesOk, CallFits, Fits, Eval, EvalName, Prolog, WithClosure, Grown,
         Known, CodeOf, Owners, Runs, LocalsOk, LocalsHold, Depths;
    var s, n := f.code.scope, TempBase(c.p.lay, f.code.scope, f.code.kind);
    Sizes(c, w, m);
    if |args| >= |s.args| {
      var x := Ctx(self, |w.closures|, f);
      var w1 := PrologFits(c, f, self, args, w, m);
      var m1, locals := Made(f, Variables(s, self, args), m), InitialLocals(n, args);
      BegunFacts(c, x, w1, m1);
      Sizes(c, w1, m1);
      ValuesGrown(c.p, w, w1, args);
      InitialOk(c.p, w1, n, args);
      ArgumentsHold(c, x, args, w1);
      BodyKnown(c, x, w1);
      EvalFits(c, x, s.body, locals, w1, m1, fuel);
      CallEnds(c, x, w, m, Variables(s, self, args), w1, f.code.kind,
               Eval(c.p, x, s.body, locals, w1, fuel), EvalName(c.Source(), x, s.body, m1, fuel));
    } else {
      UnsetFits(c, w, m, Activate(c.p, f, self, args, w, fuel));
    }
  }

  lemma UnsetFits(c: Whole, w: World, m: Memory, r: CallRes)
    ensures CallFits(c, w, m, r, CallUnset)
  {}

  lemma StandsOf(c: Whole, x: Ctx, w: World)
    requires Proper(c) && ClosuresOk(c.p, w) && Runs(c.p, x, w)
    ensures ParametersStand(c.st, x.m.code.scope)
  {
    hide Proper, ClosuresOk, Runs, ScopeTracker.Stands, TreeResolved, Resolved;
    StackOf(c, x, w);
  }

  /** The body of the running code is known. */
  lemma BodyKnown(c: Whole, x: Ctx, w: World)
    requires Proper(c) && ClosuresOk(c.p, w) && Runs(c.p, x, w)
    ensures Known(c, x.m.code.scope.body, Owners(w, x.clos), CodeOf(c.p.lay, x.m.code).codes)
  {
    hide Proper, ClosuresOk, Runs, TreeResolved, ParametersResolved, Owners, Known, Pooled, CodeOf, RA.WellMade;
    var s, stack := x.m.code.scope, Owners(w, x.clos);
    StackOf(c, x, w);
    CodeRoomy(c, x, w);
    CodePooled(c.p.lay, x.m.code);
    KnownTree(c, s.body, stack, CodeOf(c.p.lay, x.m.code).codes);
  }

  lemma CodeRoomy(c: Whole, x: Ctx, w: World)
    requires Proper(c) && ClosuresOk(c.p, w) && Runs(c.p, x, w)
    ensures Roomy(c.st, x.m.code)
  {
    hide Inv, ScopeResolved, GlobalsFit, SaneRuntime, Blind, CodeIn, ClosuresOk, Depths, SameDepths, Roomy, LayoutOf,
         CodeOf;
    OwnerIn(c.p, w, x.clos);
  }

  // ----- the nodes one by one -----

  lemma {:induction false} NameFits(c: Whole, x: Ctx, e: Node, locals: Locals, w: World, m: Memory, fuel: nat)
    requires (e.Self? || e.Named?) && Reached(c, x, e, locals, w, m)
    ensures Fits(c, x, w, m, Eval(c.p, x, e, locals, w, fuel), EvalName(c.Source(), x, e, m, fuel))
    decreases fuel, 1, e, 0
  {
    hide Proper, Live, Moved, CodeOf, Owners, Common, Fits, ValueOk, Read, Recall, Resolved, EvalCall, CallName;
    AtPlaces(c, e.id);
    SizesLive(c, x, locals, w, m);
    if e.id in c.st.places || e.Self? {
      ReadFits(c, x, e.id, if e.Self? then "self" else e.name, locals, w, m);
    } else {
      NoValues(c.p, w);
      CallNameFits(c, x, x.self, e.name, [], locals, w, m, fuel);
    }
  }

  lemma NoValues(p: Program, w: World)
    ensures ValuesOk(p, w, [])
  {}

  lemma {:induction false} AssignFits(c: Whole, x: Ctx, e: Node, locals: Locals, w: World, m: Memory, fuel: nat)
    requires e.Assign? && Reached(c, x, e, locals, w, m)
    ensures Fits(c, x, w, m, Eval(c.p, x, e, locals, w, fuel), EvalName(c.Source(), x, e, m, fuel))
    decreases fuel, 1, e, 0
  {
    hide Proper, Live, Moved, CodeOf, Owners, Common, Fits, Resolved, WriteTo, RememberIn;
    EvalFits(c, x, e.value, locals, w, m, fuel);
    RememberFits(c, x, e.id, e.name, locals, w, m, Eval(c.p, x, e.value, locals, w, fuel),
                 EvalName(c.Source(), x, e.value, m, fuel));
  }

  lemma {:induction false} OperatorFits(c: Whole, x: Ctx, e: Node, locals: Locals, w: World, m: Memory, fuel: nat)
    requires e.AssignOp? && Reached(c, x, e, locals, w, m)
    ensures Fits(c, x, w, m, Eval(c.p, x, e, locals, w, fuel), EvalName(c.Source(), x, e, m, fuel))
    decreases fuel, 1, e, 0
  {
    hide Proper, Live, Moved, CodeOf, Owners, Common, Resolved, WriteTo, RememberIn, EvalCall, CallName, Read, Recall,
         ValueOk;
    var p, lay := c.Source(), c.p.lay;
    ReadFits(c, x, e.id, e.name, locals, w, m);
    var r, q := Read(x, lay.At(e.id), locals, w), Recall(p, x, e.id, e.name, m);
    if q.Gives? {
      Next(c, x, e.value, locals, w, m, r.locals, r.w, q.m);
      EvalFits(c, x, e.value, r.locals, r.w, q.m, fuel);
      var r2, q2 := Eval(c.p, x, e.value, r.locals, r.w, fuel), EvalName(p, x, e.value, q.m, fuel);
      FitsOn(c, x, w, m, r.locals, r.w, q.m, r2, q2);
      if q2.Gives? {
        KeptValue(c, r.w, q.m, r2.w, q2.m, x.clos, r.v);
        OneValue(c.p, r2.w, r2.v);
        CallNameFits(c, x, r.v, e.op, [r2.v], r2.locals, r2.w, q2.m, fuel);
        FitsOn(c, x, w, m, r2.locals, r2.w, q2.m, EvalCall(c.p, x, r.v, e.op, [r2.v], r2.locals, r2.w, fuel),
               CallName(p, x, r.v, e.op, [r2.v], q2.m, fuel));
        RememberFits(c, x, e.id, e.name, locals, w, m, EvalCall(c.p, x, r.v, e.op, [r2.v], r2.locals, r2.w, fuel),
                     CallName(p, x, r.v, e.op, [r2.v], q2.m, fuel));
      }
    }
  }

  lemma KeptValue(c: Whole, w: World, m: Memory, w1: World, m1: Memory, k: nat, v: Value)
    requires Moved(c, w, m, w1, m1, k) && ValueOk(c.p, w, v)
    ensures ValueOk(c.p, w1, v)
  {
    hide ValueOk, Grown, RegistersStay;
    GrownMethods(c.p, w, w1, v);
  }

  lemma OneValue(p: Program, w: World, v: Value)
    requires ValueOk(p, w, v)
    ensures ValuesOk(p, w, [v])
  {
    hide ValueOk;
  }

  lemma {:induction false} UnaryFits(c: Whole, x: Ctx, e: Node, locals: Locals, w: World, m: Memory, fuel: nat)
    requires (e.Not? || e.Raise? || e.Return?) && Reached(c, x, e, locals, w, m)
    ensures Fits(c, x, w, m, Eval(c.p, x, e, locals, w, fuel), EvalName(c.Source(), x, e, m, fuel))
    decreases fuel, 1, e, 0
  {
    hide Proper, Live, Moved, CodeOf, Owners, Common, RaiseWith, RaiseName, ReturnWith, ReturnName;
    EvalFits(c, x, e.value, locals, w, m, fuel);
    var r, q := Eval(c.p, x, e.value, locals, w, fuel), EvalName(c.Source(), x, e.value, m, fuel);
    if q.Gives? {
      if e.Raise? {
        NewExceptionFits(c, x, r.v, r.locals, r.w, q.m);
        FitsOn(c, x, w, m, r.locals, r.w, q.m, RaiseWith(c.p.env, r.v, r.locals, r.w), RaiseName(c.Source(), q.v, q.m));
      } else if e.Return? {
        ReturnFits(c, x, r.v, r.locals, r.w, q.m);
        FitsOn(c, x, w, m, r.locals, r.w, q.m, ReturnWith(x, r.v, r.w), ReturnName(x, q.v, q.m));
      }
    }
  }

  /** A second node is evaluated only if the first gives a true value, or a false one. */
  lemma {:induction false} GuardFits(c: Whole, x: Ctx, e: Node, locals: Locals, w: World, m: Memory, fuel: nat)
    requires (e.And? || e.Unless?) && Reached(c, x, e, locals, w, m)
    ensures Fits(c, x, w, m, Eval(c.p, x, e, locals, w, fuel), EvalName(c.Source(), x, e, m, fuel))
    decreases fuel, 1, e, 0
  {
    hide Proper, Live, Moved, CodeOf, Owners, Common, ValueOk;
    var a, b := if e.And? then e.left else e.cond, if e.And? then e.right else e.body;
    var p := c.Source();
    EvalFits(c, x, a, locals, w, m, fuel);
    var r, q := Eval(c.p, x, a, locals, w, fuel), EvalName(p, x, a, m, fuel);
    if q.Gives? && Truthy(q.v) == e.And? {
      Next(c, x, b, locals, w, m, r.locals, r.w, q.m);
      EvalFits(c, x, b, r.locals, r.w, q.m, fuel);
      FitsOn(c, x, w, m, r.locals, r.w, q.m, Eval(c.p, x, b, r.locals, r.w, fuel), EvalName(p, x, b, q.m, fuel));
    }
  }

  lemma {:induction false} IfFits(c: Whole, x: Ctx, e: Node, locals: Locals, w: World, m: Memory, fuel: nat)
    requires e.IfCond? && Reached(c, x, e, locals, w, m)
    ensures Fits(c, x, w, m, Eval(c.p, x, e, locals, w, fuel), EvalName(c.Source(), x, e, m, fuel))
    decreases fuel, 1, e, 0
  {
    hide Proper, Live, Moved, CodeOf, Owners, Common, ValueOk;
    var p := c.Source();
    EvalFits(c, x, e.cond, locals, w, m, fuel);
    var r, q := Eval(c.p, x, e.cond, locals, w, fuel), EvalName(p, x, e.cond, m, fuel);
    if q.Gives? && (Truthy(q.v) || e.ebody.Some?) {
      var b := if Truthy(q.v) then e.body else e.ebody.value;
      Next(c, x, b, locals, w, m, r.locals, r.w, q.m);
      EvalFits(c, x, b, r.locals, r.w, q.m, fuel);
      FitsOn(c, x, w, m, r.locals, r.w, q.m, Eval(c.p, x, b, r.locals, r.w, fuel), EvalName(p, x, b, q.m, fuel));
    }
  }

  lemma {:induction false} WhileFits(c: Whole, x: Ctx, e: Node, locals: Locals, w: World, m: Memory, fuel: nat)
    requires e.While? && Reached(c, x, e, locals, w, m)
    ensures Fits(c, x, w, m, Eval(c.p, x, e, locals, w, fuel), EvalName(c.Source(), x, e, m, fuel))
    decreases fuel, 1, e, 0
  {
    hide Proper, Live, Moved, CodeOf, Owners, Common, ValueOk, Known;
    WhileKnown(c, x, e, w);
    var p := c.Source();
    EvalFits(c, x, e.cond, locals, w, m, fuel);
    var r, q := Eval(c.p, x, e.cond, locals, w, fuel), EvalName(p, x, e.cond, m, fuel);
    if q.Gives? && Truthy(q.v) {
      Next(c, x, e.body, locals, w, m, r.locals, r.w, q.m);
      EvalFits(c, x, e.body, r.locals, r.w, q.m, fuel);
      var r2, q2 := Eval(c.p, x, e.body, r.locals, r.w, fuel), EvalName(p, x, e.body, q.m, fuel);
      FitsOn(c, x, w, m, r.locals, r.w, q.m, r2, q2);
      if q2.Gives? && fuel > 0 {
        Next(c, x, e, locals, w, m, r2.locals, r2.w, q2.m);
        EvalFits(c, x, e, r2.locals, r2.w, q2.m, fuel - 1);
        FitsOn(c, x, w, m, r2.locals, r2.w, q2.m, Eval(c.p, x, e, r2.locals, r2.w, fuel - 1),
               EvalName(p, x, e, q2.m, fuel - 1));
      }
    }
  }

  lemma WhileKnown(c: Whole, x: Ctx, e: Node, w: World)
    requires e.While? && Known(c, e, Owners(w, x.clos), CodeOf(c.p.lay, x.m.code).codes)
    ensures Known(c, e.cond, Owners(w, x.clos), CodeOf(c.p.lay, x.m.code).codes)
    ensures Known(c, e.body, Owners(w, x.clos), CodeOf(c.p.lay, x.m.code).codes)
  {
    hide CodeOf, Owners;
  }

  lemma {:induction false} ValuesFit(c: Whole, x: Ctx, es: Nodes, locals: Locals, w: World, m: Memory, fuel: nat)
    requires AllReached(c, x, es, locals, w, m)
    ensures ValsFit(c, x, w, m, EvalArgs(c.p, x, es, locals, w, fuel), EvalNames(c.Source(), x, es, m, fuel))
    decreases fuel, 1, es, 1
  {
    hide Proper, Live, Moved, CodeOf, Owners, Common, Known, Eval, EvalName, ValuesOk, ValueOk, Depths;
    match es
    case NoNodes =>
      SizesLive(c, x, locals, w, m);
      NotMoved(c, w, m, x.clos);
      NoValues(c.p, w);
    case More(e, rest) =>
      var p := c.Source();
      EvalFits(c, x, e, locals, w, m, fuel);
      var r, q := Eval(c.p, x, e, locals, w, fuel), EvalName(p, x, e, m, fuel);
      if q.Gives? {
        NextAll(c, x, rest, locals, w, m, r.locals, r.w, q.m);
        ValuesFit(c, x, rest, r.locals, r.w, q.m, fuel);
        var rs, qs := EvalArgs(c.p, x, rest, r.locals, r.w, fuel), EvalNames(p, x, rest, q.m, fuel);
        if qs.Values? { MoreValues(c.p, r.w, r.v, rs.w, rs.vs, c, q.m, qs.m, x.clos); }
        ValsOn(c, x, w, m, r.locals, r.w, q.m, rs, qs);
      }
  }

  lemma MoreValues(p: Program, w: World, v: Value, w1: World, vs: seq<Value>, c: Whole, m: Memory, m1: Memory, k: nat)
    requires p == c.p && Moved(c, w, m, w1, m1, k) && ValueOk(p, w, v) && ValuesOk(p, w1, vs)
    ensures ValuesOk(p, w1, [v] + vs)
  {
    hide ValueOk;
    KeptValue(c, w, m, w1, m1, k, v);
  }

  lemma {:induction false} CollectionFits(c: Whole, x: Ctx, e: Node, locals: Locals, w: World, m: Memory, fuel: nat)
    requires (e.Tuple? || e.List?) && Reached(c, x, e, locals, w, m)
    ensures Fits(c, x, w, m, Eval(c.p, x, e, locals, w, fuel), EvalName(c.Source(), x, e, m, fuel))
    decreases fuel, 1, e, 0
  {
    hide Proper, Live, Moved, CodeOf, Owners, Common, ValuesOk, ValueOk;
    ValuesFit(c, x, e.args, locals, w, m, fuel);
    var r, q := EvalArgs(c.p, x, e.args, locals, w, fuel), EvalNames(c.Source(), x, e.args, m, fuel);
    if q.Values? { MadeFits(c, x, e.Tuple?, r.vs, r.locals, w, m, r.w, q.m); }
  }

  /** A tuple or a list made of values. */
  lemma MadeFits(c: Whole, x: Ctx, tuple: bool, vs: seq<Value>, locals: Locals, w: World, m: Memory, w1: World,
                 m1: Memory)
    requires Proper(c) && Live(c, x, locals, w1, m1) && ValuesOk(c.p, w1, vs) && Moved(c, w, m, w1, m1, x.clos)
    ensures var a := if tuple then c.p.env.makeTuple(w1, vs) else c.p.env.makeList(w1, vs);
      var b := if tuple then c.p.env.makeTuple(m1.w, vs) else c.p.env.makeList(m1.w, vs);
      Fits(c, x, w, m, Norm(a.0, locals, a.1), Gives(b.0, Heap(m1, b.1)))
  {
    hide Proper, WorldOk, Remembers, LocalsOk, Grown, ValueOk, ValuesOk, LocalsHold, RegistersStay, Runs, Alike,
         CodeOf, SaneRuntime, Blind;
    SaneOf(c);
    var a := if tuple then c.p.env.makeTuple(w1, vs) else c.p.env.makeList(w1, vs);
    var b := if tuple then c.p.env.makeTuple(m1.w, vs) else c.p.env.makeList(m1.w, vs);
    assert MadeOk(c.p, w1, a.0, a.1) by { SaneMakes(c.p, w1); }
    assert Likewise(w1, a, b) by { BlindMakes(c.p.env, w1, m1.w); }
    HeapMoved(c, w1, m1, a.1, b.1, |w1.closures|);
    LiveAfter(c, x, locals, w1, m1, a.1, Heap(m1, b.1));
    FitsOn(c, x, w, m, locals, w1, m1, Norm(a.0, locals, a.1), Gives(b.0, Heap(m1, b.1)));
  }

  lemma {:induction false} SendFits(c: Whole, x: Ctx, e: Node, locals: Locals, w: World, m: Memory, fuel: nat)
    requires e.Send? && Reached(c, x, e, locals, w, m)
    ensures Fits(c, x, w, m, Eval(c.p, x, e, locals, w, fuel), EvalName(c.Source(), x, e, m, fuel))
    decreases fuel, 1, e, 0
  {
    hide Proper, Live, Moved, CodeOf, Owners, Common, ValuesOk, ValueOk, Read, Recall, Resolved, EvalCall, CallName,
         AllKnown, Depths;
    AtPlaces(c, e.id);
    var p := c.Source();
    var local := e.selfLess && e.id in c.st.places;
    var r := if local then Read(x, c.p.lay.At(e.id), locals, w) else Eval(c.p, x, e.recv, locals, w, fuel);
    var q := if local then Recall(p, x, e.id, e.name, m) else EvalName(p, x, e.recv, m, fuel);
    if local { ReadFits(c, x, e.id, e.name, locals, w, m); } else { EvalFits(c, x, e.recv, locals, w, m, fuel); }
    if q.Gives? {
      NextAll(c, x, e.args, locals, w, m, r.locals, r.w, q.m);
      ValuesFit(c, x, e.args, r.locals, r.w, q.m, fuel);
      var rs, qs := EvalArgs(c.p, x, e.args, r.locals, r.w, fuel), EvalNames(p, x, e.args, q.m, fuel);
      SentFits(c, x, r.v, if local then "apply" else e.name, r.locals, w, m, r.w, q.m, rs, qs, fuel);
    }
  }

  lemma {:induction false} SentFits(c: Whole, x: Ctx, recv: Value, name: string, l1: Locals, w: World, m: Memory,
                                    w1: World, m1: Memory, rs: Vals, qs: NameVals, fuel: nat)
    requires Proper(c) && Live(c, x, l1, w1, m1) && Moved(c, w, m, w1, m1, x.clos) && ValueOk(c.p, w1, recv)
    requires ValsFit(c, x, w1, m1, rs, qs)
    ensures Fits(c, x, w, m,
                 if rs.Stopped? then rs.r else EvalCall(c.p, x, recv, name, rs.vs, rs.locals, rs.w, fuel),
                 if qs.Halts? then qs.r else CallName(c.Source(), x, recv, name, qs.vs, qs.m, fuel))
    decreases fuel, 0, 2
  {
    hide Proper, Live, Moved, Common, ValuesOk, ValueOk, EvalCall, CallName, Depths;
    ValsOn(c, x, w, m, l1, w1, m1, rs, qs);
    if qs.Values? {
      KeptValue(c, w1, m1, rs.w, qs.m, x.clos, recv);
      CallNameFits(c, x, recv, name, rs.vs, rs.locals, rs.w, qs.m, fuel);
      FitsOn(c, x, w, m, rs.locals, rs.w, qs.m, EvalCall(c.p, x, recv, name, rs.vs, rs.locals, rs.w, fuel),
             CallName(c.Source(), x, recv, name, qs.vs, qs.m, fuel));
    }
  }

  lemma {:induction false} DefFits(c: Whole, x: Ctx, e: Node, locals: Locals, w: World, m: Memory, fuel: nat)
    requires e.Def? && Reached(c, x, e, locals, w, m)
    ensures Fits(c, x, w, m, Eval(c.p, x, e, locals, w, fuel), EvalName(c.Source(), x, e, m, fuel))
    decreases fuel, 1, e, 0
  {
    hide Proper, Moved, CodeOf, Owners, Common, LocalsOk, LocalsHold, EvalCall, CallName, Fits;
    var f := MethodV(MethodRef(Template(e.scope, Method), x.clos));
    assert ValueOk(c.p, w, f) && ValueOk(c.p, w, StrV(e.name));
    CallNameFits(c, x, x.self, "add_method", [StrV(e.name), f], locals, w, m, fuel);
  }

  lemma {:induction false} TryFits(c: Whole, x: Ctx, e: Node, locals: Locals, w: World, m: Memory, fuel: nat)
    requires e.Try? && Reached(c, x, e, locals, w, m)
    ensures Fits(c, x, w, m, Eval(c.p, x, e, locals, w, fuel), EvalName(c.Source(), x, e, m, fuel))
    decreases fuel, 1, e, 0, 2
  {
    hide Proper, Live, Moved, CodeOf, Owners, Common, ValueOk, Known, EvalHandler, HandleName;
    TryKnown(c, x, e, w);
    EvalFits(c, x, e.body, locals, w, m, fuel);
    var r, q := Eval(c.p, x, e.body, locals, w, fuel), EvalName(c.Source(), x, e.body, m, fuel);
    if q.Throws? {
      Next(c, x, e, locals, w, m, r.locals, r.w, q.m);
      HandlerFits(c, x, e, r.e, r.locals, r.w, q.m, fuel);
      FitsOn(c, x, w, m, r.locals, r.w, q.m, EvalHandler(c.p, x, e, r.e, r.locals, r.w, fuel),
             HandleName(c.Source(), x, e, q.e, q.m, fuel));
    }
  }

  lemma TryKnown(c: Whole, x: Ctx, e: Node, w: World)
    requires e.Try? && Known(c, e, Owners(w, x.clos), CodeOf(c.p.lay, x.m.code).codes)
    ensures var stack, codes := Owners(w, x.clos), CodeOf(c.p.lay, x.m.code).codes;
      Known(c, e.body, stack, codes) && Known(c, e.handler, stack, codes) &&
      (e.excName.Some? && e.excType.Some? ==>
         Known(c, e.excType.value, stack, codes) && Resolved(c.g, c.st, e.id, e.excName.value, stack) &&
         e.excName.value != "self")
  {
    hide CodeOf, Owners, Resolved;
  }

  /** The test of a typed handler: whether the type matches. */
  lemma {:induction false} MatchFits(c: Whole, x: Ctx, e: Node, exc: nat, locals: Locals, w: World, m: Memory,
                                     fuel: nat)
    returns (r: Res, q: NameRes)
    requires e.Try? && Reached(c, x, e, locals, w, m) && e.excName.Some? && e.excType.Some?
    ensures var r1, q1 := Eval(c.p, x, e.excType.value, locals, w, fuel),
                          EvalName(c.Source(), x, e.excType.value, m, fuel);
      r == (if r1.Norm? then EvalCall(c.p, x, r1.v, "===", [ExcV(exc)], r1.locals, r1.w, fuel) else r1) &&
      q == (if q1.Gives? then CallName(c.Source(), x, q1.v, "===", [ExcV(exc)], q1.m, fuel) else q1)
    ensures Fits(c, x, w, m, r, q)
    decreases fuel, 1, e, 0, 0
  {
    hide Proper, Live, Moved, CodeOf, Owners, Common, ValueOk, Known, EvalCall, CallName, EvalName, Eval;
    TryKnown(c, x, e, w);
    var p, ty := c.Source(), e.excType.value;
    EvalFits(c, x, ty, locals, w, m, fuel);
    var r1, q1 := Eval(c.p, x, ty, locals, w, fuel), EvalName(p, x, ty, m, fuel);
    r, q := if r1.Norm? then EvalCall(c.p, x, r1.v, "===", [ExcV(exc)], r1.locals, r1.w, fuel) else r1,
            if q1.Gives? then CallName(p, x, q1.v, "===", [ExcV(exc)], q1.m, fuel) else q1;
    if q1.Gives? {
      ExceptionOk(c.p, r1.w, exc);
      OneValue(c.p, r1.w, ExcV(exc));
      CallNameFits(c, x, r1.v, "===", [ExcV(exc)], r1.locals, r1.w, q1.m, fuel);
      FitsOn(c, x, w, m, r1.locals, r1.w, q1.m, r, q);
    }
  }

  lemma {:induction false} HandlerFits(c: Whole, x: Ctx, e: Node, exc: nat, locals: Locals, w: World, m: Memory,
                                       fuel: nat)
    requires e.Try? && Reached(c, x, e, locals, w, m)
    ensures Fits(c, x, w, m, EvalHandler(c.p, x, e, exc, locals, w, fuel),
                 HandleName(c.Source(), x, e, exc, m, fuel))
    decreases fuel, 1, e, 0, 1
  {
    hide Proper, Live, Moved, CodeOf, Owners, Common, ValueOk, Known, EvalCall, CallName, Write, Remember, Resolved,
         EvalName, Eval;
    TryKnown(c, x, e, w);
    if e.excName.None? || e.excType.None? {
      EvalFits(c, x, e.handler, locals, w, m, fuel);
    } else {
      var p := c.Source();
      var r, q := MatchFits(c, x, e, exc, locals, w, m, fuel);
      if q.Gives? && Truthy(q.v) {
        SameOwners(c, x, locals, w, m, r.w, q.m);
        ExceptionOk(c.p, r.w, exc);
        WriteFits(c, x, e.id, e.excName.value, ExcV(exc), r.locals, r.w, q.m);
        var r3, q3 := Write(x, c.p.lay.At(e.id), ExcV(exc), r.locals, r.w),
                      Remember(p, x, e.id, e.excName.value, ExcV(exc), q.m);
        FitsOn(c, x, w, m, r.locals, r.w, q.m, r3, q3);
        if q3.Gives? {
          Next(c, x, e.handler, locals, w, m, r3.locals, r3.w, q3.m);
          EvalFits(c, x, e.handler, r3.locals, r3.w, q3.m, fuel);
          FitsOn(c, x, w, m, r3.locals, r3.w, q3.m, Eval(c.p, x, e.handler, r3.locals, r3.w, fuel),
                 EvalName(p, x, e.handler, q3.m, fuel));
        }
      }
    }
  }

  lemma {:induction false} EvalFits(c: Whole, x: Ctx, e: Node, locals: Locals, w: World, m: Memory, fuel: nat)
    requires Reached(c, x, e, locals, w, m)
    ensures Fits(c, x, w, m, Eval(c.p, x, e, locals, w, fuel), EvalName(c.Source(), x, e, m, fuel))
    decreases fuel, 1, e, 1
  {
    hide Proper, Live, Moved, CodeOf, Owners, Common, Eval, EvalName, Fits, Known, Depths;
    match e
    case Seq(_, _) => SeqFits(c, x, e, locals, w, m, fuel);
    case Self(_) => NameFits(c, x, e, locals, w, m, fuel);
    case Named(_, _) => NameFits(c, x, e, locals, w, m, fuel);
    case Assign(_, _, _) => AssignFits(c, x, e, locals, w, m, fuel);
    case AssignOp(_, _, _, _) => OperatorFits(c, x, e, locals, w, m, fuel);
    case Not(_) => UnaryFits(c, x, e, locals, w, m, fuel);
    case Raise(_) => UnaryFits(c, x, e, locals, w, m, fuel);
    case Return(_) => UnaryFits(c, x, e, locals, w, m, fuel);
    case And(_, _) => GuardFits(c, x, e, locals, w, m, fuel);
    case Unless(_, _) => GuardFits(c, x, e, locals, w, m, fuel);
    case IfCond(_, _, _) => IfFits(c, x, e, locals, w, m, fuel);
    case While(_, _) => WhileFits(c, x, e, locals, w, m, fuel);
    case Tuple(_) => CollectionFits(c, x, e, locals, w, m, fuel);
    case List(_) => CollectionFits(c, x, e, locals, w, m, fuel);
    case Send(_, _, _, _, _) => SendFits(c, x, e, locals, w, m, fuel);
    case Try(_, _, _, _, _) => TryFits(c, x, e, locals, w, m, fuel);
    case Def(_, _) => DefFits(c, x, e, locals, w, m, fuel);
    case _ => LeafFits(c, x, e, locals, w, m, fuel);
  }

  /** A runtime that runs any method object it is sent `apply` to is such a runtime. */
  lemma PlainIsBlind()
    ensures Blind(PlainRuntime())
  {}
}
