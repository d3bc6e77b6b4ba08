/**
 What holds in every state of every run: each closure was created for a code object nested in the
 code object its parent was created for, and each activation runs with such a closure.
 */
module RuntimeInvariant {
  import opened Ast
  import opened Emission
  import opened Machine

  /** A code object may be created in closure `q`: a file body in the globals, others in their own scope. */
  ghost predicate Inside(p: Program, c: Template, q: Closure) {
    if q.parent.None? then c.kind == Top && c.scope in p.files else c in CodeOf(p.lay, q.owner).codes
  }

  ghost predicate MethodOk(p: Program, w: World, m: MethodRef) {
    m.closure < |w.closures| && Inside(p, m.code, w.closures[m.closure])
  }

  ghost predicate ValueOk(p: Program, w: World, v: Value) { v.MethodV? ==> MethodOk(p, w, v.m) }

  ghost predicate ValuesOk(p: Program, w: World, vs: seq<Value>) {
    forall i :: 0 <= i < |vs| ==> ValueOk(p, w, vs[i])
  }

  /** A closure other than the globals belongs to an activation of its owner, below an older closure. */
  ghost predicate ClosureOk(p: Program, w: World, i: nat)
    requires i < |w.closures|
  {
    var c := w.closures[i];
    ValuesOk(p, w, c.values) &&
    (c.parent.Some? ==>
       c.parent.value < i && Inside(p, c.owner, w.closures[c.parent.value]) &&
       |c.values| == p.lay.Cov(c.owner.scope) && c.returnTo == (c.owner.kind == Method)) &&
    (c.parent.None? ==> !c.returnTo && |c.values| >= p.globals)
  }

  ghost predicate ClosuresOk(p: Program, w: World) {
    forall i :: 0 <= i < |w.closures| ==> ClosureOk(p, w, i)
  }

  ghost predicate WorldOk(p: Program, w: World) { ClosuresOk(p, w) && p.env.sane(w) }

  /** Closures are only added; their places in the chain never change. */
  ghost predicate Grown(w: World, w': World) {
    |w.closures| <= |w'.closures| &&
    forall i :: 0 <= i < |w.closures| ==>
      w'.closures[i].parent == w.closures[i].parent && w'.closures[i].owner == w.closures[i].owner &&
      w'.closures[i].returnTo == w.closures[i].returnTo && |w'.closures[i].values| == |w.closures[i].values|
  }

  ghost predicate OutcomeOk(p: Program, w: World, o: Outcome) { o.Unwind? || ValueOk(p, w, o.v) }

  ghost predicate NativeOk(p: Program, w: World, r: NativeResult) {
    WorldOk(p, r.w) && Grown(w, r.w) && OutcomeOk(p, r.w, r.o) && ValuesOk(p, r.w, r.scratch)
  }

  ghost predicate MadeOk(p: Program, w: World, v: Value, w': World) {
    WorldOk(p, w') && Grown(w, w') && ValueOk(p, w', v)
  }

  /**
   What is asked of the rest of the runtime: it finds and hands out only methods that exist, never
   rewires closures, and does not care about assignments to closed-over variables.
   */
  ghost predicate SaneRuntime(p: Program) {
    (forall w, v, name :: WorldOk(p, w) && ValueOk(p, w, v) && p.env.find(w, v, name).Bytecode? ==>
       MethodOk(p, w, p.env.find(w, v, name).m)) &&
    (forall w, v, name, vs :: WorldOk(p, w) && ValueOk(p, w, v) && ValuesOk(p, w, vs) ==>
       NativeOk(p, w, p.env.native(w, v, name, vs))) &&
    (forall w, name :: WorldOk(p, w) ==> MadeOk(p, w, NilV, p.env.missing(w, name).1)) &&
    (forall w, a, n :: WorldOk(p, w) ==> MadeOk(p, w, NilV, p.env.badArity(w, a, n).1)) &&
    (forall w, s :: WorldOk(p, w) ==> MadeOk(p, w, NilV, p.env.newException(w, s).1)) &&
    (forall w, vs :: WorldOk(p, w) && ValuesOk(p, w, vs) ==>
       MadeOk(p, w, p.env.makeTuple(w, vs).0, p.env.makeTuple(w, vs).1)) &&
    (forall w, vs :: WorldOk(p, w) && ValuesOk(p, w, vs) ==>
       MadeOk(p, w, p.env.makeList(w, vs).0, p.env.makeList(w, vs).1)) &&
    (forall w, w' :: WorldOk(p, w) && ClosuresOk(p, w') && Grown(w, w') && w'.heap == w.heap ==> p.env.sane(w'))
  }

  /** The activation runs with a closure created for it. */
  ghost predicate FrameOk(p: Program, w: World, f: Frame) {
    f.clos < |w.closures| && w.closures[f.clos].parent == Some(f.m.closure) && w.closures[f.clos].owner == f.m.code
  }

  ghost predicate FramesOk(p: Program, w: World, fs: seq<Frame>) {
    (forall i :: 0 <= i < |fs| ==> FrameOk(p, w, fs[i])) &&
    (forall i, j :: 0 <= i < j < |fs| ==> fs[i].clos < fs[j].clos)
  }

  ghost predicate RegsOk(p: Program, w: World, regs: Regs) { forall i :: i in regs ==> ValueOk(p, w, regs[i]) }

  ghost predicate StateOk(p: Program, s: State) {
    match s
    case Running(callers, f, regs, w) => WorldOk(p, w) && FramesOk(p, w, callers + [f]) && RegsOk(p, w, regs)
    case Done(o, w) => WorldOk(p, w) && OutcomeOk(p, w, o)
    case Crashed => true
  }

  // ----- the code of a program -----

  /** The code objects lead from a file inwards, each in the pool of the one before. */
  ghost predicate Nested(p: Program, cs: seq<Template>) {
    cs != [] && cs[0].kind == Top && cs[0].scope in p.files &&
    forall i :: 0 < i < |cs| ==> cs[i] in CodeOf(p.lay, cs[i - 1]).codes
  }

  /** `c` is a code object of the program. */
  ghost predicate CodeIn(p: Program, c: Template) { exists cs :: Nested(p, cs) && cs[|cs| - 1] == c }

  lemma InnerCode(p: Program, o: Template, c: Template)
    requires CodeIn(p, o) && c in CodeOf(p.lay, o).codes
    ensures CodeIn(p, c)
  {
    hide CodeOf;
    var cs :| Nested(p, cs) && cs[|cs| - 1] == o;
    assert Nested(p, cs + [c]);
  }

  /** Every closure but the globals belongs to code of the program. */
  lemma {:induction false} OwnerIn(p: Program, w: World, i: nat)
    requires ClosuresOk(p, w) && i < |w.closures| && w.closures[i].parent.Some?
    ensures CodeIn(p, w.closures[i].owner)
    decreases i
  {
    hide CodeOf, ValuesOk, CodeIn;
    assert ClosureOk(p, w, i);
    var q := w.closures[i].parent.value;
    InsideIn(p, w, w.closures[i].owner, q) by { if w.closures[q].parent.Some? { OwnerIn(p, w, q); } }
  }

  lemma InsideIn(p: Program, w: World, c: Template, q: nat)
    requires q < |w.closures| && Inside(p, c, w.closures[q])
    requires w.closures[q].parent.Some? ==> CodeIn(p, w.closures[q].owner)
    ensures CodeIn(p, c)
  {
    hide CodeOf;
    if w.closures[q].parent.None? {
      assert Nested(p, [c]);
    } else {
      InnerCode(p, w.closures[q].owner, c);
    }
  }

  /** Every method object that exists is of the program. */
  lemma MethodIn(p: Program, w: World, m: MethodRef)
    requires ClosuresOk(p, w) && MethodOk(p, w, m)
    ensures CodeIn(p, m.code)
  {
    hide CodeOf, CodeIn, ClosuresOk;
    InsideIn(p, w, m.code, m.closure) by { if w.closures[m.closure].parent.Some? { OwnerIn(p, w, m.closure); } }
  }

  // ----- growth -----

  lemma GrownMethods(p: Program, w: World, w': World, v: Value)
    requires Grown(w, w') && ValueOk(p, w, v)
    ensures ValueOk(p, w', v)
  {
    hide CodeOf;
  }

  lemma GrownRegs(p: Program, w: World, w': World, regs: Regs)
    requires Grown(w, w') && RegsOk(p, w, regs)
    ensures RegsOk(p, w', regs)
  {
    hide CodeOf, Grown, ValueOk;
    forall i | i in regs ensures ValueOk(p, w', regs[i]) { GrownMethods(p, w, w', regs[i]); }
  }

  lemma GrownFrames(p: Program, w: World, w': World, fs: seq<Frame>)
    requires Grown(w, w') && FramesOk(p, w, fs)
    ensures FramesOk(p, w', fs)
  {
    hide CodeOf;
  }

  lemma GetOk(p: Program, w: World, regs: Regs, i: int)
    requires RegsOk(p, w, regs)
    ensures ValueOk(p, w, Get(regs, i))
  {}

  lemma SetOk(p: Program, w: World, regs: Regs, i: int, v: Value)
    requires RegsOk(p, w, regs) && ValueOk(p, w, v)
    ensures RegsOk(p, w, regs[i := v])
  {
    hide ValueOk;
  }

  lemma {:induction false} ScribbleOk(p: Program, w: World, regs: Regs, start: int, vs: seq<Value>)
    requires RegsOk(p, w, regs) && ValuesOk(p, w, vs)
    ensures RegsOk(p, w, Scribble(regs, start, vs))
    decreases |vs|
  {
    hide ValueOk;
    if vs != [] {
      SetOk(p, w, regs, start, vs[0]);
      ScribbleOk(p, w, regs[start := vs[0]], start + 1, vs[1..]);
    }
  }

  lemma WindowOk(p: Program, w: World, regs: Regs, start: int, n: nat)
    requires RegsOk(p, w, regs)
    ensures ValuesOk(p, w, Window(regs, start, n))
  {
    hide ValueOk, CodeOf;
    forall k | 0 <= k < n ensures ValueOk(p, w, Window(regs, start, n)[k]) { GetOk(p, w, regs, start + k); }
  }

  lemma {:induction false} ReadOk(p: Program, w: World, c: nat, depth: int, idx: int)
    requires ClosuresOk(p, w) && GetAtDepth(w, c, depth, idx).Holds?
    ensures ValueOk(p, w, GetAtDepth(w, c, depth, idx).v)
    decreases depth
  {
    hide CodeOf, MethodOk;
    assert c < |w.closures| && ClosureOk(p, w, c);
    if depth > 0 && w.closures[c].parent.Some? { ReadOk(p, w, w.closures[c].parent.value, depth - 1, idx); }
  }

  /** One closure slot overwritten. */
  function Stored(w: World, c: nat, idx: int, v: Value): World
    requires c < |w.closures| && 0 <= idx < |w.closures[c].values|
  {
    w.(closures := w.closures[c := w.closures[c].(values := w.closures[c].values[idx := v])])
  }

  lemma StoredOk(p: Program, w: World, c: nat, idx: int, v: Value)
    requires c < |w.closures| && 0 <= idx < |w.closures[c].values| && ClosuresOk(p, w) && ValueOk(p, w, v)
    ensures ClosuresOk(p, Stored(w, c, idx, v)) && Grown(w, Stored(w, c, idx, v))
  {
    hide CodeOf, Inside;
    var w' := Stored(w, c, idx, v);
    assert Grown(w, w');
    forall i | 0 <= i < |w'.closures| ensures ClosureOk(p, w', i) {
      assert ClosureOk(p, w, i);
      StoredClosureOk(p, w, c, idx, v, i);
    }
  }

  lemma StoredClosureOk(p: Program, w: World, c: nat, idx: int, v: Value, i: nat)
    requires c < |w.closures| && 0 <= idx < |w.closures[c].values| && i < |w.closures|
    requires ValueOk(p, w, v) && ClosureOk(p, w, i)
    ensures ClosureOk(p, Stored(w, c, idx, v), i)
  {
    hide CodeOf, ValueOk;
    var w' := Stored(w, c, idx, v);
    forall k | 0 <= k < |w'.closures[i].values| ensures ValueOk(p, w', w'.closures[i].values[k]) {
      GrownMethods(p, w, w', w'.closures[i].values[k]);
    }
  }

  lemma {:induction false} WriteOk(p: Program, w: World, c: nat, depth: int, idx: int, v: Value)
    requires SaneRuntime(p) && WorldOk(p, w) && ValueOk(p, w, v) && SetAtDepth(w, c, depth, idx, v).Some?
    ensures var w' := SetAtDepth(w, c, depth, idx, v).value; WorldOk(p, w') && Grown(w, w')
    decreases depth
  {
    hide CodeOf, ValueOk, ClosureOk;
    if depth <= 0 {
      StoredOk(p, w, c, idx, v);
      SaneStays(p, w, Stored(w, c, idx, v));
    } else if w.closures[c].parent.Some? {
      WriteOk(p, w, w.closures[c].parent.value, depth - 1, idx, v);
    }
  }

  lemma SaneStays(p: Program, w: World, w': World)
    requires SaneRuntime(p) && WorldOk(p, w) && ClosuresOk(p, w') && Grown(w, w') && w'.heap == w.heap
    ensures WorldOk(p, w')
  {
    hide ClosuresOk, Grown, MadeOk, NativeOk, MethodOk, ValueOk, ValuesOk;
  }

  lemma WithClosureOk(p: Program, m: MethodRef, w: World)
    requires SaneRuntime(p) && WorldOk(p, w) && MethodOk(p, w, m)
    ensures WorldOk(p, WithClosure(p, m, w)) && Grown(w, WithClosure(p, m, w))
  {
    hide CodeOf, ValueOk, Inside, SaneRuntime;
    var w' := WithClosure(p, m, w);
    forall i | 0 <= i < |w'.closures| ensures ClosureOk(p, w', i) {
      if i < |w.closures| {
        assert ClosureOk(p, w, i) && w'.closures[i] == w.closures[i];
        forall k | 0 <= k < |w'.closures[i].values| ensures ValueOk(p, w', w'.closures[i].values[k]) {
          GrownMethods(p, w, w', w'.closures[i].values[k]);
        }
      } else {
        NilsOk(p, w', p.lay.Cov(m.code.scope));
      }
    }
    SaneStays(p, w, w');
  }

  lemma NilsOk(p: Program, w: World, n: nat)
    ensures ValuesOk(p, w, seq(n, _ => NilV))
  {}

  // ----- steps -----

  lemma {:induction false} DeliverOk(p: Program, frames: seq<Frame>, o: Outcome, regs: Regs, w: World)
    requires WorldOk(p, w) && FramesOk(p, w, frames) && RegsOk(p, w, regs) && OutcomeOk(p, w, o)
    ensures StateOk(p, Deliver(p, frames, o, regs, w))
    decreases |frames|
  {
    hide WorldOk, CodeOf, ValueOk;
    if frames != [] {
      var f := frames[|frames| - 1];
      var callers := frames[..|frames| - 1];
      match o
      case Ret(v) => SetOk(p, w, regs, f.fp + At(Code(p, f).code, f.ip + 1), v);
      case Unwind(e) =>
        if f.es == [] {
          DeliverOk(p, callers, o, regs, w);
        } else {
          ExceptionOk(p, w, e);
          SetOk(p, w, regs, f.fp + f.es[|f.es| - 1].reg, ExcV(e));
        }
      case LongRet(v, target) => DeliverOk(p, callers, if target == f.clos then Ret(v) else o, regs, w);
    }
  }

  lemma ExceptionOk(p: Program, w: World, e: nat)
    ensures ValueOk(p, w, ExcV(e))
  {}

  /** The state and the world of a running state. */
  ghost predicate RunningOk(p: Program, callers: seq<Frame>, f: Frame, regs: Regs, w: World) {
    WorldOk(p, w) && FramesOk(p, w, callers + [f]) && RegsOk(p, w, regs)
  }

  /** Delivering into a world that grew. */
  lemma DeliverGrown(p: Program, frames: seq<Frame>, o: Outcome, regs: Regs, w: World, w': World)
    requires FramesOk(p, w, frames) && RegsOk(p, w, regs)
    requires WorldOk(p, w') && Grown(w, w') && OutcomeOk(p, w', o)
    ensures StateOk(p, Deliver(p, frames, o, regs, w'))
  {
    hide WorldOk, Deliver, StateOk, OutcomeOk, Grown, RegsOk, FramesOk;
    GrownFrames(p, w, w', frames);
    GrownRegs(p, w, w', regs);
    DeliverOk(p, frames, o, regs, w');
  }

  lemma CallersOk(p: Program, callers: seq<Frame>, f: Frame, w: World)
    requires FramesOk(p, w, callers + [f])
    ensures FramesOk(p, w, callers)
  {
    hide FrameOk;
    var fs := callers + [f];
    assert forall i :: 0 <= i < |callers| ==> callers[i] == fs[i];
  }

  lemma MovedOk(p: Program, callers: seq<Frame>, f: Frame, f': Frame, w: World)
    requires FramesOk(p, w, callers + [f]) && f'.clos == f.clos && f'.m == f.m
    ensures FramesOk(p, w, callers + [f'])
  {
    var fs, fs' := callers + [f], callers + [f'];
    assert forall i :: 0 <= i < |fs| ==> fs'[i].clos == fs[i].clos && fs'[i].m == fs[i].m && FrameOk(p, w, fs[i]);
  }

  lemma ActivatedOk(p: Program, callers: seq<Frame>, f: Frame, m: MethodRef, fp: int, w: World, regs: Regs)
    requires SaneRuntime(p) && WorldOk(p, w) && FramesOk(p, w, callers + [f]) && RegsOk(p, w, regs) && MethodOk(p, w, m)
    ensures RunningOk(p, callers + [f], Activation(m, fp, w), regs, WithClosure(p, m, w))
  {
    hide CodeOf, WorldOk, ValueOk, Inside, Grown, SaneRuntime;
    var w' := WithClosure(p, m, w);
    var fs := callers + [f];
    var fs' := fs + [Activation(m, fp, w)];
    WithClosureOk(p, m, w);
    GrownFrames(p, w, w', fs);
    GrownRegs(p, w, w', regs);
    assert forall i :: 0 <= i < |fs| ==> fs'[i] == fs[i] && FrameOk(p, w, fs[i]) && FrameOk(p, w', fs[i]);
  }

  lemma CallOk(p: Program, callers: seq<Frame>, f: Frame, name: string, recv: int, argc: nat, regs: Regs, w: World)
    requires SaneRuntime(p) && RunningOk(p, callers, f, regs, w)
    ensures StateOk(p, Call(p, callers, f, name, recv, argc, regs, w))
  {
    hide WorldOk, Deliver, FramesOk, Grown, Scribble, RegsOk, MethodOk, WithClosure, CodeOf, ClosuresOk;
    var v := Get(regs, f.fp + recv);
    var vs := Window(regs, f.fp + recv + 1, argc);
    GetOk(p, w, regs, f.fp + recv);
    WindowOk(p, w, regs, f.fp + recv + 1, argc);
    match p.env.find(w, v, name)
    case NotFound =>
      var (e, w') := p.env.missing(w, name);
      assert MadeOk(p, w, NilV, w');
      DeliverGrown(p, callers + [f], Unwind(e), regs, w, w');
    case Native =>
      var r := p.env.native(w, v, name, vs);
      assert NativeOk(p, w, r);
      GrownFrames(p, w, r.w, callers + [f]);
      GrownRegs(p, w, r.w, regs);
      ScribbleOk(p, r.w, regs, f.fp + recv, r.scratch);
      DeliverOk(p, callers + [f], r.o, Scribble(regs, f.fp + recv, r.scratch), r.w);
    case Bytecode(m, checked) =>
      if checked && Arity(m) > 0 && argc != Arity(m) {
        var (e, w') := p.env.badArity(w, Arity(m), argc);
        assert MadeOk(p, w, NilV, w');
        DeliverGrown(p, callers + [f], Unwind(e), regs, w, w');
      } else {
        ActivatedOk(p, callers, f, m, f.fp + recv + 1, w, regs);
      }
  }

  /** Loading a value and moving on. */
  lemma LoadOk(p: Program, callers: seq<Frame>, f: Frame, n: int, regs: Regs, r: int, v: Value, w: World, w': World)
    requires RunningOk(p, callers, f, regs, w) && WorldOk(p, w') && Grown(w, w') && ValueOk(p, w', v)
    ensures StateOk(p, Next(callers, f, n, regs[r := v], w'))
  {
    hide WorldOk, Grown, RegsOk, ValueOk, FramesOk;
    GrownFrames(p, w, w', callers + [f]);
    GrownRegs(p, w, w', regs);
    SetOk(p, w', regs, r, v);
    MovedOk(p, callers, f, f.(ip := f.ip + n), w');
  }

  lemma NoGrowth(w: World)
    ensures Grown(w, w)
  {}

  /** A method object made from the running code's pool belongs in the running activation's closure. */
  lemma LoadedMethodOk(p: Program, f: Frame, i: nat, w: World)
    requires FrameOk(p, w, f) && i < |Code(p, f).codes|
    ensures ValueOk(p, w, MethodV(MethodRef(Code(p, f).codes[i], f.clos)))
  {
    hide CodeOf;
  }

  lemma MoveOk(p: Program, op: int, callers: seq<Frame>, f: Frame, regs: Regs, w: World)
    requires RunningOk(p, callers, f, regs, w)
    ensures StateOk(p, MoveStep(p, op, callers, f, regs, w))
  {
    hide WorldOk, Grown, RegsOk, FramesOk, MethodOk, CodeOf, StateOk;
    var c, q := Code(p, f), f.ip;
    var a, b := At(c.code, q + 1), At(c.code, q + 2);
    NoGrowth(w);
    GetOk(p, w, regs, f.fp + b);
    GetOk(p, w, regs, f.fp - 1);
    LastFrame(p, callers, f, w);
    match MoveStep(p, op, callers, f, regs, w)
    case Running(_, f', regs', _) =>
      var v := Get(regs', f.fp + a);
      if op == LOADC { LoadedMethodOk(p, f, b, w); }
      LoadOk(p, callers, f, f'.ip - f.ip, regs, f.fp + a, v, w, w);
    case _ => CrashOk(p);
  }

  lemma LastFrame(p: Program, callers: seq<Frame>, f: Frame, w: World)
    requires FramesOk(p, w, callers + [f])
    ensures FrameOk(p, w, f)
  {
    assert (callers + [f])[|callers|] == f;
  }

  lemma CrashOk(p: Program)
    ensures StateOk(p, Crashed)
  {}

  lemma WorldStepOk(p: Program, op: int, callers: seq<Frame>, f: Frame, regs: Regs, w: World)
    requires SaneRuntime(p) && RunningOk(p, callers, f, regs, w)
    ensures StateOk(p, WorldStep(p, op, callers, f, regs, w))
  {
    hide Grown, RegsOk, FramesOk, MethodOk, CodeOf, StateOk, GetAtDepth, SetAtDepth, ValueOk, ClosuresOk;
    var c, q := Code(p, f), f.ip;
    var a, b, d := At(c.code, q + 1), At(c.code, q + 2), At(c.code, q + 3);
    CrashOk(p);
    NoGrowth(w);
    if op == LVAR {
      if GetAtDepth(w, f.clos, b, d).Holds? {
        ReadOk(p, w, f.clos, b, d);
        LoadOk(p, callers, f, 4, regs, f.fp + a, GetAtDepth(w, f.clos, b, d).v, w, w);
      }
    } else if op == SVAR {
      var v := Get(regs, f.fp + SignedByte(d));
      GetOk(p, w, regs, f.fp + SignedByte(d));
      if SetAtDepth(w, f.clos, a, b, v).Some? {
        WriteOk(p, w, f.clos, a, b, v);
        StayOk(p, callers, f, 4, regs, w, SetAtDepth(w, f.clos, a, b, v).value);
      }
    } else if 0 <= d {
      WindowOk(p, w, regs, f.fp + b, d);
      var vs := Window(regs, f.fp + b, d);
      var (v, w') := if op == TUPLE then p.env.makeTuple(w, vs) else p.env.makeList(w, vs);
      assert MadeOk(p, w, v, w');
      LoadOk(p, callers, f, 4, regs, f.fp + a, v, w, w');
    }
  }

  lemma StayOk(p: Program, callers: seq<Frame>, f: Frame, n: int, regs: Regs, w: World, w': World)
    requires RunningOk(p, callers, f, regs, w) && WorldOk(p, w') && Grown(w, w')
    ensures StateOk(p, Next(callers, f, n, regs, w'))
  {
    hide WorldOk, Grown, RegsOk, FramesOk, CodeOf;
    GrownFrames(p, w, w', callers + [f]);
    GrownRegs(p, w, w', regs);
    MovedOk(p, callers, f, f.(ip := f.ip + n), w');
  }

  lemma JumpOk(p: Program, op: int, callers: seq<Frame>, f: Frame, regs: Regs, w: World)
    requires RunningOk(p, callers, f, regs, w)
    ensures StateOk(p, JumpStep(p, op, callers, f, regs, w))
  {
    hide WorldOk, RegsOk, FramesOk, CodeOf;
    match JumpStep(p, op, callers, f, regs, w)
    case Running(_, f', _, _) => MovedOk(p, callers, f, f', w);
    case _ =>
  }

  lemma LeaveOk(p: Program, op: int, callers: seq<Frame>, f: Frame, regs: Regs, w: World)
    requires SaneRuntime(p) && RunningOk(p, callers, f, regs, w)
    ensures StateOk(p, LeaveStep(p, op, callers, f, regs, w))
  {
    hide WorldOk, RegsOk, FramesOk, CodeOf, Deliver, Grown, StateOk, Target, ClosuresOk;
    var v := Get(regs, f.fp + At(Code(p, f).code, f.ip + 1));
    GetOk(p, w, regs, f.fp + At(Code(p, f).code, f.ip + 1));
    CallersOk(p, callers, f, w);
    CrashOk(p);
    NoGrowth(w);
    DeliverOk(p, callers, Ret(v), regs, w);
    if Target(w, f.m.closure).Some? { DeliverOk(p, callers, LongRet(v, Target(w, f.m.closure).value), regs, w); }
    match Wrap(p.env, v, w)
    case Some((x, w')) =>
      assert w' == w || MadeOk(p, w, NilV, w');
      DeliverGrown(p, callers + [f], Unwind(x), regs, w, w');
    case None =>
  }

  /** Every step keeps the invariant. */
  lemma StepOk(p: Program, s: State)
    requires SaneRuntime(p) && StateOk(p, s)
    ensures StateOk(p, Step(p, s))
  {
    hide WorldOk, RegsOk, FramesOk, CodeOf, Deliver, SaneRuntime, MoveStep, WorldStep, JumpStep, LeaveStep, Call;
    match s
    case Running(callers, f, regs, w) =>
      CallersOk(p, callers, f, w);
      DeliverOk(p, callers, Ret(NilV), regs, w) by { NilOk(p, w); }
      var c := Code(p, f);
      if 0 <= f.ip < |c.code| {
        var op := c.code[f.ip];
        var name, recv, argc := At(c.code, f.ip + 2), At(c.code, f.ip + 3), At(c.code, f.ip + 4);
        if 0 <= name < |c.strs| && 0 <= argc { CallOk(p, callers, f, c.strs[name], recv, argc, regs, w); }
        WorldStepOk(p, op, callers, f, regs, w);
        JumpOk(p, op, callers, f, regs, w);
        LeaveOk(p, op, callers, f, regs, w);
        MoveOk(p, op, callers, f, regs, w);
      }
    case _ =>
  }

  lemma NilOk(p: Program, w: World)
    ensures OutcomeOk(p, w, Ret(NilV))
  {}

  /** The invariant holds in every state of every run. */
  lemma {:induction false} AlwaysOk(p: Program, s: State, k: nat)
    requires SaneRuntime(p) && StateOk(p, s)
    ensures StateOk(p, Steps(p, s, k))
    decreases k
  {
    hide Step, SaneRuntime, StateOk;
    if k > 0 {
      StepOk(p, s);
      AlwaysOk(p, Step(p, s), k - 1);
    }
  }

  /** The invariant holds when a method object that exists is about to run. */
  lemma StartOk(p: Program, m: MethodRef, regs: Regs, fp: int, w: World)
    requires SaneRuntime(p) && WorldOk(p, w) && MethodOk(p, w, m) && RegsOk(p, w, regs)
    ensures StateOk(p, Start(p, m, regs, fp, w))
  {
    hide SaneRuntime, MethodOk, WorldOk, Grown, RegsOk;
    WithClosureOk(p, m, w);
    GrownRegs(p, w, WithClosure(p, m, w), regs);
    assert [] + [Activation(m, fp, w)] == [Activation(m, fp, w)];
  }

  // ----- such runtimes exist -----

  /** A runtime that runs whatever method object `apply` or `|` is sent to, with any number of arguments. */
  function PlainRuntime(): Env {
    Env(w => true,
        (w, v: Value, name) => if v.MethodV? && name in {"apply", "|"} then Bytecode(v.m, false) else NotFound,
        (w, v, name, vs) => NativeResult(Ret(NilV), w, []),
        (w, name) => (0, w), (w, arity, argc) => (1, w), (w, message) => (2, w),
        (w, vs) => (NilV, w), (w, vs) => (NilV, w))
  }

  /** Nothing more is asked of a runtime than it can give while it runs every method object it meets. */
  lemma PlainIsSane(p: Program)
    requires p.env == PlainRuntime()
    ensures SaneRuntime(p) && forall w, m :: p.env.find(w, MethodV(m), "apply") == Bytecode(m, false)
  {
    hide ClosuresOk, Inside;
  }
}
