/**
 The registers scope analysis hands out are the ones the compiler keeps temporaries away from: exactly
 when that is so for a block, and that it makes the code of every scope sound.
 */
module RegisterAllocation {
  import opened Ast
  import opened Emission
  import opened ScopeTracker
  import opened ScopeAnalysis
  import opened Simulation

  // ----- how many registers there are -----

  lemma {:induction false} Pigeons(m: map<string, int>, lo: int, hi: int)
    requires lo <= hi && forall r :: lo <= r < hi ==> Uses(m, r)
    ensures hi - lo <= |m|
    decreases hi - lo
  {
    if lo < hi {
      assert Uses(m, lo);
      var x :| x in m && m[x] == lo;
      var m' := m - {x};
      forall r | lo + 1 <= r < hi ensures Uses(m', r) {
        assert Uses(m, r);
        var y :| y in m && m[y] == r;
        assert y in m' && m'[y] == r;
      }
      assert m == m'[x := lo];
      Pigeons(m', lo + 1, hi);
    }
  }

  lemma {:induction false} Holes(m: map<string, int>, n: nat, i: int)
    requires Injective(m) && 0 <= i < n && !Uses(m, i) && forall x :: x in m ==> 0 <= m[x] < n
    ensures |m| < n
    decreases n
  {
    if x :| x in m && m[x] == n - 1 {
      var m' := m - {x};
      assert m == m'[x := n - 1];
      assert i != n - 1;
      forall y | y in m' ensures m'[y] == m[y] && m[y] != n - 1 {}
      assert forall y :: y in m ==> m[y] != i;
      Holes(m', n - 1, i);
    } else if i < n - 1 {
      Holes(m, n - 1, i);
    } else {
      Few(m, n - 1);
    }
  }

  lemma {:induction false} Few(m: map<string, int>, n: nat)
    requires Injective(m) && forall x :: x in m ==> 0 <= m[x] < n
    ensures |m| <= n
    decreases n
  {
    if x :| x in m {
      if y :| y in m && m[y] == n - 1 {
        var m' := m - {y};
        assert m == m'[y := n - 1];
        forall z | z in m' ensures m'[z] == m[z] && m[z] != n - 1 {}
        Few(m', n - 1);
      } else {
        assert 0 <= m[x] < n;
        Few(m, n - 1);
      }
    } else {
      assert m == map[];
    }
  }

  /** Methods and file bodies count their parameters too, so their temporaries are clear of every local. */
  lemma LocalsBelow(m: map<string, int>, argc: nat, x: string)
    requires Gapless(m, argc) && x in m
    ensures m[x] < argc + |m|
  {
    if m[x] >= argc {
      forall r | argc <= r < m[x] + 1 ensures Uses(m, r) { assert x in m; }
      Pigeons(m, argc, m[x] + 1);
    }
  }

  /** No argument below a register local, and no argument below another, has moved to a closure. */
  ghost predicate OnlyLastCaptured(m: map<string, int>, argc: nat) {
    forall x, i :: x in m && 0 <= i < argc && i < m[x] ==> Uses(m, i)
  }

  /**
   A block starts its temporaries at the number of its register locals. That is clear of every local
   exactly when an argument is captured only if no later argument and no other local stays in a register.
   */
  lemma BlockTemporariesClear(m: map<string, int>, argc: nat)
    requires Gapless(m, argc) && "self" !in m
    ensures (forall x :: x in m ==> m[x] < |m|) <==> OnlyLastCaptured(m, argc)
  {
    if forall x :: x in m ==> m[x] < |m| {
      forall x, i | x in m && 0 <= i < argc && i < m[x] ensures Uses(m, i) {
        if !Uses(m, i) { Holes(m, |m|, i); }
      }
    }
    if OnlyLastCaptured(m, argc) {
      forall x | x in m ensures m[x] < |m| {
        forall r | 0 <= r < m[x] + 1 ensures Uses(m, r) { assert x in m; }
        if m[x] >= 0 { Pigeons(m, 0, m[x] + 1); }
      }
    }
  }

  // ----- soundness -----

  /** `SVAR` names the register it stores from with a signed byte. */
  predicate StoredLow(lay: Layout, id: nat, t: int) { lay.At(id).Some? && lay.At(id).value.Clo? ==> t < 128 }

  /** Evaluated into register `t`, the node stores into closures only from registers below 128. */
  ghost predicate Storable(lay: Layout, e: Node, t: int)
    decreases e
  {
    match e
    case Seq(x, y) => Storable(lay, x, t) && Storable(lay, y, t)
    case Assign(id, _, v) => Storable(lay, v, t) && StoredLow(lay, id, t)
    case AssignOp(id, _, _, v) => Storable(lay, v, t + 1) && StoredLow(lay, id, t)
    case Not(v) => Storable(lay, v, t)
    case And(x, y) => Storable(lay, x, t) && Storable(lay, y, t)
    case IfCond(c, x, y) => Storable(lay, c, t) && Storable(lay, x, t) && (y.Some? ==> Storable(lay, y.value, t))
    case Unless(c, x) => Storable(lay, c, t) && Storable(lay, x, t)
    case While(c, x) => Storable(lay, c, t) && Storable(lay, x, t)
    case Tuple(args) => AllStorable(lay, args, t)
    case List(args) => AllStorable(lay, args, t)
    case Send(id, _, selfLess, recv, args) =>
      ((selfLess && lay.At(id).Some?) || Storable(lay, recv, t)) && AllStorable(lay, args, t + 1)
    case Raise(v) => Storable(lay, v, t)
    case Try(id, body, handler, name, ty) =>
      Storable(lay, body, t) && Storable(lay, handler, t) &&
      (name.Some? && ty.Some? ==> Storable(lay, ty.value, t + 1) && StoredLow(lay, id, t))
    case Return(v) => Storable(lay, v, t)
    case _ => true
  }

  ghost predicate AllStorable(lay: Layout, es: Nodes, t: int)
    decreases es
  {
    match es
    case NoNodes => true
    case More(e, rest) => Storable(lay, e, t) && AllStorable(lay, rest, t + 1)
  }

  /** Every number literal is one the instructions load as written; `self` is never assigned. */
  ghost predicate WellMade(e: Node)
    decreases Weight(e), 1
  {
    PartsWeighLess(e);
    (e.Number? ==> LoadableNumber(e.val)) &&
    (UseOf(e).Define? || UseOf(e).Rebind? ==> UseOf(e).name != "self") && AllWellMade(Parts(e))
  }

  ghost predicate AllWellMade(es: Nodes)
    decreases WeightAll(es), 0
  {
    match es
    case NoNodes => true
    case More(e, rest) => WellMade(e) && AllWellMade(rest)
  }

  /** The analysis is over, the current scope's registers are below `n`. */
  ghost predicate Settled(st: Tracking, scope: nat, n: nat) {
    Inv(st) && st.stack == [] && scope in st.locals &&
    forall x :: x in st.locals[scope] ==> -1 <= st.locals[scope][x] < n && (st.locals[scope][x] == -1 ==> x == "self")
  }

  ghost predicate Ready(g: Setting, st: Tracking, e: Node, stack: seq<nat>) {
    TreeResolved(g, st, e, stack) && WellMade(e)
  }

  ghost predicate AllReady(g: Setting, st: Tracking, es: Nodes, stack: seq<nat>) {
    AllResolved(g, st, es, stack) && AllWellMade(es)
  }

  lemma SplitReady(g: Setting, st: Tracking, es: Nodes, stack: seq<nat>)
    requires AllReady(g, st, es, stack)
    ensures es.More? ==> Ready(g, st, es.head, stack) && AllReady(g, st, es.rest, stack)
  {
    hide TreeResolved, WellMade;
  }

  lemma ReadyParts(g: Setting, st: Tracking, e: Node, stack: seq<nat>)
    requires ScopeOf(e).None? && Ready(g, st, e, stack)
    ensures AllReady(g, st, Parts(e), stack)
  {
    hide Parts, UseOf, ScopeOf, Answered;
  }

  lemma FirstReady(g: Setting, st: Tracking, a: Node, rest: Nodes, stack: seq<nat>)
    requires AllReady(g, st, More(a, rest), stack)
    ensures Ready(g, st, a, stack) && AllReady(g, st, rest, stack)
  {
    SplitReady(g, st, More(a, rest), stack);
  }

  /** The places of a node's own name. */
  lemma UsePlace(g: Setting, st: Tracking, e: Node, stack: seq<nat>, n: nat)
    requires stack != [] && Settled(st, stack[|stack| - 1], n) && Ready(g, st, e, stack) && ScopeOf(e).None?
    ensures var u, lay := UseOf(e), LayoutOf(st);
      match u
      case NoUse => true
      case Lookup(id, name) => (lay.At(id).Some? ==> ReadableLoc(lay.At(id), n)) && (e.Self? ==> lay.At(id).Some?)
      case Define(id, name) => lay.At(id).Some? && (lay.At(id).value.Reg? ==> 0 <= lay.At(id).value.reg < n)
      case Rebind(id, name) => lay.At(id).Some? && (lay.At(id).value.Reg? ==> 0 <= lay.At(id).value.reg < n)
  {
    hide Inv, Resolved, SlotOf, AllResolved, AllWellMade;
    UseReady(g, st, e, stack);
    var u := UseOf(e);
    if !u.NoUse? {
      if Resolved(g, st, u.id, u.name, stack) { PlaceNamesVariable(g, st, u.id, u.name, stack); }
    }
  }

  lemma UseReady(g: Setting, st: Tracking, e: Node, stack: seq<nat>)
    requires Ready(g, st, e, stack) && ScopeOf(e).None?
    ensures Answered(g, st, UseOf(e), stack)
    ensures e.Self? ==> Resolved(g, st, e.id, "self", stack)
    ensures UseOf(e).Define? || UseOf(e).Rebind? ==> UseOf(e).name != "self"
    ensures e.Number? ==> LoadableNumber(e.val)
  {
    hide UseOf, Answered, Resolved, AllResolved, AllWellMade, Parts;
  }

  lemma {:induction false} SoundTree(g: Setting, st: Tracking, e: Node, stack: seq<nat>, t: nat, n: nat)
    requires stack != [] && Settled(st, stack[|stack| - 1], n) && Ready(g, st, e, stack) && Storable(LayoutOf(st), e, t)
    ensures Sound(LayoutOf(st), e, t, n)
    decreases e
  {
    hide Settled, Ready, AllReady, Weight, UseOf, LayoutOf;
    if ScopeOf(e).None? {
      ReadyParts(g, st, e, stack);
      UsePlace(g, st, e, stack, n);
      UsesName(e);
      UseReady(g, st, e, stack);
      match e
      case Seq(x, y) => SoundTwo(g, st, e, x, y, stack, t, n);
      case And(x, y) => SoundTwo(g, st, e, x, y, stack, t, n);
      case Unless(x, y) => SoundTwo(g, st, e, x, y, stack, t, n);
      case While(x, y) => SoundTwo(g, st, e, x, y, stack, t, n);
      case IfCond(c, x, y) =>
        FirstReady(g, st, c, Parts(e).rest, stack);
        FirstReady(g, st, x, Parts(e).rest.rest, stack);
        SoundTree(g, st, c, stack, t, n);
        SoundTree(g, st, x, stack, t, n);
        if y.Some? {
          FirstReady(g, st, y.value, NoNodes, stack);
          SoundTree(g, st, y.value, stack, t, n);
        }
      case Tuple(args) => SoundList(g, st, args, stack, t, n);
      case List(args) => SoundList(g, st, args, stack, t, n);
      case Send(id, _, selfLess, recv, args) =>
        FirstReady(g, st, recv, args, stack);
        if !(selfLess && LayoutOf(st).At(id).Some?) { SoundTree(g, st, recv, stack, t, n); }
        SoundList(g, st, args, stack, t + 1, n);
      case Try(_, body, handler, name, ty) =>
        FirstReady(g, st, body, Parts(e).rest, stack);
        SoundTree(g, st, body, stack, t, n);
        if ty.Some? {
          FirstReady(g, st, ty.value, More(handler, NoNodes), stack);
          if name.Some? { SoundTree(g, st, ty.value, stack, t + 1, n); }
        }
        FirstReady(g, st, handler, NoNodes, stack);
        SoundTree(g, st, handler, stack, t, n);
      case Assign(_, _, v) => SoundOne(g, st, e, v, stack, t, n);
      case AssignOp(_, _, _, v) => SoundOne(g, st, e, v, stack, t + 1, n);
      case Not(v) => SoundOne(g, st, e, v, stack, t, n);
      case Raise(v) => SoundOne(g, st, e, v, stack, t, n);
      case Return(v) => SoundOne(g, st, e, v, stack, t, n);
      case _ =>
    }
  }

  lemma UsesName(e: Node)
    ensures match e
      case Self(id) => UseOf(e).Lookup? && UseOf(e).id == id
      case Named(id, _) => UseOf(e).Lookup? && UseOf(e).id == id
      case Send(id, _, selfLess, _, _) => selfLess ==> UseOf(e).Lookup? && UseOf(e).id == id
      case Assign(id, _, _) => UseOf(e).Define? && UseOf(e).id == id
      case AssignOp(id, _, _, _) => UseOf(e).Rebind? && UseOf(e).id == id
      case Try(id, _, _, name, _) => name.Some? ==> UseOf(e).Rebind? && UseOf(e).id == id
      case _ => true
  {}

  lemma {:induction false} SoundOne(g: Setting, st: Tracking, e: Node, x: Node, stack: seq<nat>, t: nat, n: nat)
    requires stack != [] && Settled(st, stack[|stack| - 1], n) && AllReady(g, st, More(x, NoNodes), stack)
    requires Storable(LayoutOf(st), x, t) && x < e
    ensures Sound(LayoutOf(st), x, t, n)
    decreases e, 0
  {
    hide Settled, Ready, AllReady, Storable, Sound;
    FirstReady(g, st, x, NoNodes, stack);
    SoundTree(g, st, x, stack, t, n);
  }

  lemma {:induction false} SoundTwo(g: Setting, st: Tracking, e: Node, x: Node, y: Node, stack: seq<nat>, t: nat,
                                    n: nat)
    requires stack != [] && Settled(st, stack[|stack| - 1], n) && AllReady(g, st, More(x, More(y, NoNodes)), stack)
    requires Storable(LayoutOf(st), x, t) && Storable(LayoutOf(st), y, t) && x < e && y < e
    ensures Sound(LayoutOf(st), x, t, n) && Sound(LayoutOf(st), y, t, n)
    decreases e, 0
  {
    hide Settled, Ready, AllReady, Storable, Sound;
    FirstReady(g, st, x, More(y, NoNodes), stack);
    FirstReady(g, st, y, NoNodes, stack);
    SoundTree(g, st, x, stack, t, n);
    SoundTree(g, st, y, stack, t, n);
  }

  lemma {:induction false} SoundList(g: Setting, st: Tracking, es: Nodes, stack: seq<nat>, t: nat, n: nat)
    requires stack != [] && Settled(st, stack[|stack| - 1], n) && AllReady(g, st, es, stack)
    requires AllStorable(LayoutOf(st), es, t)
    ensures SoundArgs(LayoutOf(st), es, t, n)
    decreases es
  {
    hide Settled, Ready, AllReady, Storable, Sound;
    match es
    case NoNodes =>
    case More(e, rest) =>
      FirstReady(g, st, e, rest, stack);
      SoundTree(g, st, e, stack, t, n);
      SoundList(g, st, rest, stack, t + 1, n);
  }

  /**
   The code of every scope of an analysed program is sound, with no further condition for methods and file bodies;
   for a block, if only last arguments are captured.
   */
  lemma AnalysedIsSound(g: Setting, st: Tracking, s: Scope, stack: seq<nat>, kind: Ast.Kind)
    requires Inv(st) && st.stack == [] && ScopeResolved(g, st, s, stack + [s.id]) && WellMade(s.body)
    requires kind == Top ==> s.args == []
    requires kind == Ast.Block ==> "self" !in st.locals[s.id] && OnlyLastCaptured(st.locals[s.id], |s.args|)
    requires Storable(LayoutOf(st), s.body, TempBase(LayoutOf(st), s, kind))
    requires |s.args| <= 128 && FitsBytes(LayoutOf(st), Template(s, kind))
    ensures SoundCode(LayoutOf(st), Template(s, kind))
  {
    hide Inv, TreeResolved, WellMade, Sound, FitsBytes, Storable, ParametersResolved, Gapless, Settled;
    ScopeSettled(g, st, s, stack + [s.id], kind);
    var stack', n := stack + [s.id], TempBase(LayoutOf(st), s, kind);
    assert stack'[|stack'| - 1] == s.id;
    SoundTree(g, st, s.body, stack', n, n);
  }

  /** All registers of an analysed scope lie below its temporaries. */
  lemma ScopeSettled(g: Setting, st: Tracking, s: Scope, stack: seq<nat>, kind: Ast.Kind)
    requires Inv(st) && st.stack == [] && ScopeResolved(g, st, s, stack)
    requires kind == Top ==> s.args == []
    requires kind == Ast.Block ==> "self" !in st.locals[s.id] && OnlyLastCaptured(st.locals[s.id], |s.args|)
    ensures Settled(st, s.id, TempBase(LayoutOf(st), s, kind))
  {
    hide Inv, TreeResolved, ParametersResolved, Gapless;
    var m, n := st.locals[s.id], TempBase(LayoutOf(st), s, kind);
    forall x | x in m ensures -1 <= m[x] < n && (m[x] == -1 ==> x == "self") {
      LocalsBelow(m, |s.args|, x);
      if kind == Ast.Block { BlockTemporariesClear(m, |s.args|); }
      GaplessLow(m, |s.args|, x);
    }
  }

  lemma GaplessLow(m: map<string, int>, argc: nat, x: string)
    requires Gapless(m, argc) && x in m
    ensures -1 <= m[x] && (m[x] == -1 ==> x == "self")
  {}
}
