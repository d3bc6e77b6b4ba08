/**
 The machine running the emitted code does what the evaluator says, for every node, register,
 activation, and runtime.
 */
module Simulation {
  import opened Ast
  import opened Emission
  import opened Machine
  import opened Evaluator
  import opened RuntimeInvariant

  // ----- side conditions -----

  ghost predicate ReadableLoc(l: Option<Loc>, n: nat) {
    l.Some? && (l.value.Reg? ==> -1 <= l.value.reg < n)
  }

  /** `SVAR` reads its register operand as a signed byte. */
  ghost predicate WritableLoc(l: Option<Loc>, n: nat, t: int) {
    l.Some? && (if l.value.Reg? then 0 <= l.value.reg < n else t < 128)
  }

  /** The 32-bit number literals that `MOVI8` and `MOVI32` load as written. */
  predicate LoadableNumber(v: int) { 0 <= v < 0x8000_0000 || -0x8000_0000 <= v <= -127 }

  /**
   Evaluated into register `t` of an activation with `n` register locals, the node names only
   places of that activation and literals the instructions can carry.
   */
  ghost predicate Sound(lay: Layout, e: Node, t: int, n: nat)
    decreases e
  {
    match e
    case Seq(x, y) => Sound(lay, x, t, n) && Sound(lay, y, t, n)
    case Number(v) => LoadableNumber(v)
    case Self(id) => ReadableLoc(lay.At(id), n)
    case Named(id, _) => lay.At(id).Some? ==> ReadableLoc(lay.At(id), n)
    case Assign(id, _, v) => Sound(lay, v, t, n) && WritableLoc(lay.At(id), n, t)
    case AssignOp(id, _, _, v) => Sound(lay, v, t + 1, n) && WritableLoc(lay.At(id), n, t)
    case Not(v) => Sound(lay, v, t, n)
    case And(x, y) => Sound(lay, x, t, n) && Sound(lay, y, t, n)
    case IfCond(c, x, y) => Sound(lay, c, t, n) && Sound(lay, x, t, n) && (y.Some? ==> Sound(lay, y.value, t, n))
    case Unless(c, x) => Sound(lay, c, t, n) && Sound(lay, x, t, n)
    case While(c, x) => Sound(lay, c, t, n) && Sound(lay, x, t, n)
    case Tuple(args) => SoundArgs(lay, args, t, n)
    case List(args) => SoundArgs(lay, args, t, n)
    case Send(id, _, selfLess, recv, args) =>
      (if selfLess && lay.At(id).Some? then ReadableLoc(lay.At(id), n) else Sound(lay, recv, t, n)) &&
      SoundArgs(lay, args, t + 1, n)
    case Raise(v) => Sound(lay, v, t, n)
    case Try(id, body, handler, name, ty) =>
      Sound(lay, body, t, n) && Sound(lay, handler, t, n) &&
      (name.Some? && ty.Some? ==> Sound(lay, ty.value, t + 1, n) && WritableLoc(lay.At(id), n, t))
    case Return(v) => Sound(lay, v, t, n)
    case _ => true
  }

  ghost predicate SoundArgs(lay: Layout, es: Nodes, t: int, n: nat)
    decreases es
  {
    match es
    case NoNodes => true
    case More(e, rest) => Sound(lay, e, t, n) && SoundArgs(lay, rest, t + 1, n)
  }

  /** A code object that means what its scope says: its bytes fit and its locals lie below its temporaries. */
  ghost predicate SoundCode(lay: Layout, c: Template) {
    FitsBytes(lay, c) && |c.scope.args| <= 128 &&
    Sound(lay, c.scope.body, TempBase(lay, c.scope, c.kind), TempBase(lay, c.scope, c.kind))
  }

  /** The runtime is sane, and all code of the program is sound. */
  ghost predicate SoundProgram(p: Program) {
    SaneRuntime(p) && forall c :: CodeIn(p, c) ==> SoundCode(p.lay, c)
  }

  /** A sound program in a state that keeps the invariant: only code of the program can be called from there. */
  ghost predicate Good(p: Program, s: State) { SoundProgram(p) && StateOk(p, s) }

  lemma GoodLater(p: Program, s: State, k: nat)
    requires Good(p, s)
    ensures Good(p, Steps(p, s, k))
  {
    hide SaneRuntime, StateOk, Steps, SoundCode, CodeIn;
    AlwaysOk(p, s, k);
  }

  // ----- what running a piece of code must establish -----

  /** Between `regs` and `regs'` only the locals and the cells from `fp + t` upwards may differ. */
  ghost predicate Keeps(regs: Regs, regs': Regs, fp: int, n: nat, t: int) {
    forall i :: i < fp || fp + n <= i < fp + t ==> Get(regs', i) == Get(regs, i)
  }

  ghost predicate HoldsLocals(locals: Locals, regs: Regs, fp: int) {
    forall i :: 0 <= i < |locals| && locals[i].Some? ==> Get(regs, fp + i) == locals[i].value
  }

  ghost predicate HoldsArgs(vs: seq<Value>, regs: Regs, start: int) {
    forall k :: 0 <= k < |vs| ==> Get(regs, start + k) == vs[k]
  }

  /** The machine is in activation `x`, with `locals` in its registers. */
  ghost predicate In(s: State, x: Ctx, locals: Locals) {
    s.Running? && s.top.m == x.m && s.top.clos == x.clos && Get(s.regs, s.top.fp - 1) == x.self &&
    HoldsLocals(locals, s.regs, s.top.fp)
  }

  /** `s'` is `s` further on in the same activation. */
  ghost predicate Advanced(s: State, size: int, n: nat, t: int, locals: Locals, w: World, s': State) {
    s.Running? && s'.Running? && s'.callers == s.callers && s'.top == s.top.(ip := s.top.ip + size) && s'.w == w &&
    Keeps(s.regs, s'.regs, s.top.fp, n, t) && |locals| == n && HoldsLocals(locals, s'.regs, s.top.fp)
  }

  /** Throwing in an activation does not depend on where it is. */
  function Throw(p: Program, callers: seq<Frame>, f: Frame, e: nat, regs: Regs, w: World): State {
    Deliver(p, callers + [f.(ip := 0)], Unwind(e), regs, w)
  }

  lemma ThrowAnywhere(p: Program, callers: seq<Frame>, f: Frame, ip: int, e: nat, regs: Regs, w: World)
    ensures Deliver(p, callers + [f.(ip := ip)], Unwind(e), regs, w) == Throw(p, callers, f, e, regs, w)
  {
    hide CodeOf;
    assert (callers + [f.(ip := ip)])[..|callers|] == callers;
    assert (callers + [f.(ip := 0)])[..|callers|] == callers;
  }

  /**
   `k` steps from `s` lead to `s'`, and `s'` is the state that result `r` of evaluating `size`
   bytes of code into register `t` stands for.
   */
  ghost predicate Simulates(p: Program, s: State, k: nat, s': State, regs': Regs, r: Res, size: int, n: nat, t: int,
                            fuel: int)
  {
    Steps(p, s, k) == s' && s.Running? && s.top.ip >= 0 &&
    match r
    case Norm(v, l, w) => Advanced(s, size, n, t, l, w, s') && Get(s'.regs, s.top.fp + t) == v
    case Exc(e, l, w) =>
      s' == Throw(p, s.callers, s.top, e, regs', w) && Keeps(s.regs, regs', s.top.fp, n, t) &&
      |l| == n && HoldsLocals(l, regs', s.top.fp)
    case Leave(o, w) => s' == Deliver(p, s.callers, o, regs', w) && Keeps(s.regs, regs', s.top.fp, 0, 0)
    case Junk => true
    case Timeout => s'.Running? && k >= fuel
    case Abort => s'.Crashed?
  }

  lemma OneStep(p: Program, s: State)
    ensures Steps(p, s, 1) == Step(p, s)
  {
    hide CodeOf, SendStep, WorldStep, JumpStep, LeaveStep, MoveStep;
    assert Steps(p, Step(p, s), 0) == Step(p, s);
  }

  /** First `k1` steps within the activation, then a simulation from there. */
  lemma Then(p: Program, s: State, k1: nat, s1: State, size1: int, t1: int, l1: Locals,
             k2: nat, s2: State, regs2: Regs, r: Res, size: int, n: nat, t: int, fuel2: int, fuel: int)
    requires Steps(p, s, k1) == s1 && s.Running? && s1.Running? && s.top.ip >= 0
    requires Advanced(s, size1, n, t1, l1, s1.w, s1)
    requires Simulates(p, s1, k2, s2, regs2, r, size - size1, n, t, fuel2)
    requires n <= t <= t1
    requires fuel <= k1 + fuel2
    ensures Simulates(p, s, k1 + k2, s2, regs2, r, size, n, t, fuel)
  {
    hide Step, CodeOf;
    StepsAdd(p, s, k1, k2);
    if r.Exc? {
      assert s1.top.(ip := 0) == s.top.(ip := 0);
    }
  }

  /** Further on in the same activation, its code and self are what they were. */
  lemma Arrived(p: Program, s: State, x: Ctx, locals: Locals, size: int, t: int, locals': Locals, w': World, s': State)
    requires In(s, x, locals) && Advanced(s, size, |locals|, t, locals', w', s')
    ensures In(s', x, locals') && Code(p, s'.top) == Code(p, s.top) && s'.top.ip == s.top.ip + size && s'.w == w'
    ensures |locals'| == |locals|
  {}

  /** A result that is no value may be seen with a smaller target register and any size. */
  lemma Narrower(p: Program, s: State, k: nat, s': State, regs': Regs, r: Res, size: int, n: nat, t: int, fuel: int,
                 size': int, t': int)
    requires Simulates(p, s, k, s', regs', r, size, n, t, fuel)
    requires !r.Norm? && t' <= t
    ensures Simulates(p, s, k, s', regs', r, size', n, t', fuel)
  {
    hide Good, Step, Steps, Deliver;
  }

  /** A simulation that produced a value, taken apart. */
  lemma Settled(p: Program, s: State, x: Ctx, locals: Locals, k: nat, s': State, regs': Regs, r: Res, size: int, t: int,
                fuel: int)
    requires In(s, x, locals) && r.Norm? && Simulates(p, s, k, s', regs', r, size, |locals|, t, fuel)
    ensures Steps(p, s, k) == s' && s'.Running? && s'.w == r.w && s.top.ip >= 0
    ensures Advanced(s, size, |locals|, t, r.locals, r.w, s') && Get(s'.regs, s'.top.fp + t) == r.v
    ensures In(s', x, r.locals) && Code(p, s'.top) == Code(p, s.top) && s'.top.ip == s.top.ip + size
    ensures |r.locals| == |locals| && s'.callers == s.callers && s'.top.fp == s.top.fp
  {
    hide Good, Step, Steps, Deliver, CodeOf;
  }

  lemma Reached(p: Program, s: State, k: nat, s': State, regs': Regs, r: Res, size: int, n: nat, t: int, fuel: int)
    requires s.Running? && s'.Running? && s.top.ip >= 0 && r.Norm? && Steps(p, s, k) == s'
    requires Advanced(s, size, n, t, r.locals, r.w, s') && Get(s'.regs, s'.top.fp + t) == r.v
    ensures Simulates(p, s, k, s', regs', r, size, n, t, fuel)
  {
    hide Good, Step, Steps, Deliver;
  }

  // ----- single instructions -----

  lemma Loads(p: Program, s: State, locals: Locals, t: int, size: int, v: Value, fuel: int)
    requires s.Running? && s.top.ip >= 0 && HoldsLocals(locals, s.regs, s.top.fp) && |locals| <= t
    requires Step(p, s) == Next(s.callers, s.top, size, s.regs[s.top.fp + t := v], s.w)
    ensures Simulates(p, s, 1, Step(p, s), s.regs, Norm(v, locals, s.w), size, |locals|, t, fuel)
  {
    hide CodeOf, SendStep, WorldStep, JumpStep, LeaveStep, MoveStep;
    OneStep(p, s);
  }

  /** The bytes that `Push` appended stand in every code that continues it. */
  lemma Fetch(b: Buf, xs: seq<int>, c: Buf)
    requires Extends(Push(b, xs), c)
    ensures |b.code| + |xs| <= |c.code|
    ensures forall i :: 0 <= i < |xs| ==> At(c.code, |b.code| + i) == xs[i]
  {
    assert forall i :: 0 <= i < |xs| ==> (b.code + xs)[|b.code| + i] == xs[i];
  }

  lemma WordRoundTrip(v: int)
    requires -0x8000_0000 <= v < 0x8000_0000
    ensures WordValue(WordByte(v, 0), WordByte(v, 1), WordByte(v, 2), WordByte(v, 3)) == v
  {
    var u := v % 0x1_0000_0000;
    assert u / 65536 == u / 256 / 256;
    assert u / 16777216 == u / 65536 / 256;
    assert u / 16777216 % 256 == u / 16777216;
    assert u == 256 * (u / 256) + u % 256;
    assert u / 256 == 256 * (u / 65536) + u / 256 % 256;
    assert u / 65536 == 256 * (u / 16777216) + u / 65536 % 256;
  }

  /** The state stands at the start of the code for `e`. */
  ghost predicate Before(p: Program, s: State, x: Ctx, e: Node, t: int, b: Buf, locals: Locals) {
    Good(p, s) && In(s, x, locals) && |locals| <= t && s.top.ip == |b.code| &&
    Sound(p.lay, e, t, |locals|) && Extends(Emit(p.lay, x.m.code.kind == Block, e, t, b), Code(p, s.top))
  }

  /** `k` steps do what the node means. */
  ghost predicate Does(p: Program, s: State, x: Ctx, e: Node, t: int, locals: Locals, fuel: nat, k: nat, s': State,
                       regs': Regs)
  {
    s.Running? && Simulates(p, s, k, s', regs', Eval(p, x, e, locals, s.w, fuel), Size(p.lay, e), |locals|, t, fuel)
  }

  /** One step does what the node means. */
  ghost predicate DoesAtOnce(p: Program, s: State, x: Ctx, e: Node, t: int, locals: Locals, fuel: nat) {
    s.Running? && Does(p, s, x, e, t, locals, fuel, 1, Step(p, s), s.regs)
  }

  lemma SimConstant(p: Program, s: State, x: Ctx, e: Node, t: int, b: Buf, locals: Locals, fuel: nat)
    requires e.Nil? || e.True? || e.False?
    requires Before(p, s, x, e, t, b, locals)
    ensures DoesAtOnce(p, s, x, e, t, locals, fuel)
  {
    hide Good, Steps, Deliver, Simulates, CodeOf, HoldsLocals;
    var c := Code(p, s.top);
    match e
    case Nil => Fetch(b, [MOVN, t], c); Loads(p, s, locals, t, 2, NilV, fuel);
    case True => Fetch(b, [MOVT, t], c); Loads(p, s, locals, t, 2, TrueV, fuel);
    case False => Fetch(b, [MOVF, t], c); Loads(p, s, locals, t, 2, FalseV, fuel);
  }

  lemma SimNumber(p: Program, s: State, x: Ctx, e: Node, t: int, b: Buf, locals: Locals, fuel: nat)
    requires e.Number? && Before(p, s, x, e, t, b, locals)
    ensures DoesAtOnce(p, s, x, e, t, locals, fuel)
  {
    hide Good, Steps, Deliver, Simulates, WordByte, WordValue, CodeOf;
    var c, v := Code(p, s.top), e.val;
    Fetch(b, NumberCode(v, t), c);
    if -127 < v < 128 {
      Loads(p, s, locals, t, 3, IntV(v), fuel);
    } else {
      WordRoundTrip(v);
      Loads(p, s, locals, t, 6, IntV(v), fuel);
    }
  }

  lemma SimPooled(p: Program, s: State, x: Ctx, e: Node, t: int, b: Buf, locals: Locals, fuel: nat)
    requires e.LiteralString? || e.Lambda?
    requires Before(p, s, x, e, t, b, locals)
    ensures DoesAtOnce(p, s, x, e, t, locals, fuel)
  {
    hide Good, Steps, Deliver, Simulates, CodeOf;
    var c := Code(p, s.top);
    match e
    case LiteralString(str) =>
      Fetch(b, [LOADS, t, |b.strs|], c.(strs := b.strs, codes := b.codes));
      Loads(p, s, locals, t, 3, StrV(str), fuel);
    case Lambda(sc) =>
      Fetch(b, [LOADC, t, |b.codes|], c.(strs := b.strs, codes := b.codes));
      Loads(p, s, locals, t, 3, MethodV(MethodRef(Template(sc, Block), x.clos)), fuel);
  }

  lemma SimGet(p: Program, s: State, x: Ctx, l: Option<Loc>, t: int, b: Buf, locals: Locals, fuel: nat)
    requires In(s, x, locals) && |locals| <= t && s.top.ip == |b.code|
    requires ReadableLoc(l, |locals|) && Extends(PushGet(b, l, t), Code(p, s.top))
    ensures Simulates(p, s, 1, Step(p, s), s.regs, Read(x, l, locals, s.w), GetSize(l), |locals|, t, fuel)
  {
    hide CodeOf, Deliver, Call, SendStep, JumpStep, LeaveStep;
    var c := Code(p, s.top);
    Fetch(b, GetCode(l.value, t), c);
    OneStep(p, s);
    match l.value
    case Reg(r) =>
      if r == -1 {
        Loads(p, s, locals, t, 2, x.self, fuel);
      } else if locals[r].Some? {
        Loads(p, s, locals, t, 3, locals[r].value, fuel);
      }
    case Clo(d, i) =>
      if GetAtDepth(s.w, x.clos, d, i).Holds? {
        Loads(p, s, locals, t, 4, GetAtDepth(s.w, x.clos, d, i).v, fuel);
      }
  }

  lemma SimSet(p: Program, s: State, x: Ctx, l: Option<Loc>, t: int, b: Buf, locals: Locals, fuel: nat)
    requires In(s, x, locals) && |locals| <= t && s.top.ip == |b.code|
    requires WritableLoc(l, |locals|, t) && Extends(PushSet(b, l, t), Code(p, s.top))
    ensures Simulates(p, s, 1, Step(p, s), s.regs, Write(x, l, Get(s.regs, s.top.fp + t), locals, s.w), SetSize(l),
                      |locals|, t, fuel)
  {
    hide CodeOf, Deliver, Call, SendStep, JumpStep, LeaveStep;
    var c := Code(p, s.top);
    Fetch(b, SetCode(l.value, t), c);
    OneStep(p, s);
    match l.value
    case Reg(r) =>
    case Clo(d, i) => assert SignedByte(Byte(t)) == t;
  }

  // ----- calls -----

  /** What running an activation must establish, seen from its first instruction. */
  ghost predicate Completes(p: Program, s: State, k: nat, s': State, regs': Regs, c: CallRes, fuel: int) {
    Steps(p, s, k) == s' && s.Running? &&
    match c
    case Came(o, w) => s' == Deliver(p, s.callers, o, regs', w) && Keeps(s.regs, regs', s.top.fp, 0, 0)
    case CallJunk => true
    case CallTimeout => s'.Running? && k >= fuel
    case CallAbort => s'.Crashed?
  }

  /** An outcome delivered to the activation that waits at a `SEND` into register `t`. */
  lemma Delivered(p: Program, s: State, x: Ctx, t: int, locals: Locals, k: nat, o: Outcome, regs': Regs, w': World,
                  fuel: int)
    requires In(s, x, locals) && |locals| <= t && s.top.ip >= 0 && At(Code(p, s.top).code, s.top.ip + 1) == t
    requires Keeps(s.regs, regs', s.top.fp, 0, t)
    requires Steps(p, s, k) == Deliver(p, s.callers + [s.top], o, regs', w')
    ensures Simulates(p, s, k, Steps(p, s, k), regs', Finish(Came(o, w'), x.clos, locals), 5, |locals|, t, fuel)
  {
    hide Step, Steps, CodeOf;
    assert (s.callers + [s.top])[..|s.callers|] == s.callers;
    if o.Unwind? { ThrowAnywhere(p, s.callers, s.top, s.top.ip, o.exc, regs', w'); }
  }

  /** The state stands at a `SEND` of `name` with its receiver in register `t` and `vs` above it. */
  ghost predicate AtSend(p: Program, s: State, x: Ctx, recv: Value, name: string, vs: seq<Value>, t: int, b: Buf,
                         locals: Locals)
  {
    Good(p, s) && In(s, x, locals) && |locals| <= t && s.top.ip == |b.code| &&
    Extends(PushSend(b, t, name, t, |vs|), Code(p, s.top)) &&
    Get(s.regs, s.top.fp + t) == recv && HoldsArgs(vs, s.regs, s.top.fp + t + 1)
  }

  lemma SendsCall(p: Program, s: State, x: Ctx, recv: Value, name: string, vs: seq<Value>, t: int, b: Buf,
                  locals: Locals)
    requires AtSend(p, s, x, recv, name, vs, t, b, locals)
    ensures Step(p, s) == Call(p, s.callers, s.top, name, t, |vs|, s.regs, s.w)
    ensures At(Code(p, s.top).code, s.top.ip + 1) == t
  {
    hide Call, CodeOf, SaneRuntime, StateOk, Good;
    Fetch(b, [SEND, t, |b.strs|, t, |vs|], Code(p, s.top).(strs := b.strs, codes := b.codes));
  }

  /** Calls that run no bytecode. */
  lemma SimNative(p: Program, s: State, x: Ctx, recv: Value, name: string, vs: seq<Value>, t: int, b: Buf,
                  locals: Locals, fuel: nat)
    returns (s': State, regs': Regs)
    requires AtSend(p, s, x, recv, name, vs, t, b, locals)
    requires var d := p.env.find(s.w, recv, name);
      d.Bytecode? ==> d.checked && Arity(d.m) > 0 && |vs| != Arity(d.m)
    ensures Simulates(p, s, 1, s', regs', EvalCall(p, x, recv, name, vs, locals, s.w, fuel), 5, |locals|, t, fuel)
  {
    hide SaneRuntime, StateOk;
    SendsCall(p, s, x, recv, name, vs, t, b, locals);
    OneStep(p, s);
    hide Good, Step, Steps, Deliver, Simulates, Finish;
    s', regs' := Step(p, s), s.regs;
    assert Window(s.regs, s.top.fp + t + 1, |vs|) == vs;
    match p.env.find(s.w, recv, name)
    case NotFound =>
      var (e, w') := p.env.missing(s.w, name);
      Delivered(p, s, x, t, locals, 1, Unwind(e), s.regs, w', fuel);
    case Native =>
      var r := p.env.native(s.w, recv, name, vs);
      regs' := Scribble(s.regs, s.top.fp + t, r.scratch);
      Delivered(p, s, x, t, locals, 1, r.o, regs', r.w, fuel);
    case Bytecode(m, checked) =>
      var (e, w') := p.env.badArity(s.w, Arity(m), |vs|);
      Delivered(p, s, x, t, locals, 1, Unwind(e), s.regs, w', fuel);
  }

  lemma {:induction false} SimCall(p: Program, s: State, x: Ctx, recv: Value, name: string, vs: seq<Value>, t: int,
                                   b: Buf, locals: Locals, fuel: nat)
    returns (k: nat, s': State, regs': Regs)
    requires AtSend(p, s, x, recv, name, vs, t, b, locals)
    ensures Simulates(p, s, k, s', regs', EvalCall(p, x, recv, name, vs, locals, s.w, fuel), 5, |locals|, t, fuel)
    decreases fuel, 0, 1
  {
    hide Simulates, EvalCall, SaneRuntime, StateOk, Emit;
    var d := p.env.find(s.w, recv, name);
    if !d.Bytecode? || (d.checked && Arity(d.m) > 0 && |vs| != Arity(d.m)) {
      k := 1;
      s', regs' := SimNative(p, s, x, recv, name, vs, t, b, locals, fuel);
    } else {
      k, s', regs' := SimBytecode(p, s, x, d.m, recv, name, vs, t, b, locals, fuel);
    }
  }

  /** A send of a bytecode method starts its activation above the caller's. */
  lemma BytecodeCalled(p: Program, s: State, x: Ctx, m: MethodRef, recv: Value, name: string, vs: seq<Value>, t: int,
                       b: Buf, locals: Locals)
    requires AtSend(p, s, x, recv, name, vs, t, b, locals)
    requires var d := p.env.find(s.w, recv, name);
      d.Bytecode? && d.m == m && !(d.checked && Arity(m) > 0 && |vs| != Arity(m))
    ensures Good(p, Step(p, s)) && SoundCode(p.lay, m.code)
    ensures In(s, x, locals) && |locals| <= t && s.top.ip >= 0 && At(Code(p, s.top).code, s.top.ip + 1) == t
    ensures var s' := Step(p, s);
      s'.Running? && s'.top == Activation(m, s.top.fp + t + 1, s.w) && s'.w == WithClosure(p, m, s.w) &&
      s'.callers == s.callers + [s.top] && s'.regs == s.regs &&
      Get(s'.regs, s'.top.fp - 1) == recv && HoldsArgs(vs, s'.regs, s'.top.fp)
  {
    hide Step, SoundCode, SoundProgram, StateOk, CodeIn, HoldsLocals, Extends, WithClosure, CodeOf;
    SendsCall(p, s, x, recv, name, vs, t, b, locals);
    FoundIsSound(p, s, t, recv, name);
    OneStep(p, s);
    GoodLater(p, s, 1);
  }

  /** What the runtime finds in such a state is sound code. */
  lemma FoundIsSound(p: Program, s: State, t: int, recv: Value, name: string)
    requires Good(p, s) && s.Running? && Get(s.regs, s.top.fp + t) == recv && p.env.find(s.w, recv, name).Bytecode?
    ensures SoundCode(p.lay, p.env.find(s.w, recv, name).m.code)
  {
    hide SoundCode, CodeIn, ClosuresOk, FramesOk, MethodOk, NativeOk, MadeOk;
    GetOk(p, s.w, s.regs, s.top.fp + t);
    MethodIn(p, s.w, p.env.find(s.w, recv, name).m);
  }

  lemma {:induction false} SimBytecode(p: Program, s: State, x: Ctx, m: MethodRef, recv: Value, name: string,
                                       vs: seq<Value>, t: int, b: Buf, locals: Locals, fuel: nat)
    returns (k: nat, s': State, regs': Regs)
    requires AtSend(p, s, x, recv, name, vs, t, b, locals)
    requires var d := p.env.find(s.w, recv, name);
      d.Bytecode? && d.m == m && !(d.checked && Arity(m) > 0 && |vs| != Arity(m))
    ensures Simulates(p, s, k, s', regs', EvalCall(p, x, recv, name, vs, locals, s.w, fuel), 5, |locals|, t, fuel)
    decreases fuel, 0, 0
  {
    hide Good, Step, Steps, Deliver, SoundProgram, SoundCode, Activate, Keeps, WithClosure, HoldsArgs, AtSend, CodeOf;
    BytecodeCalled(p, s, x, m, recv, name, vs, t, b, locals);
    OneStep(p, s);
    k, s', regs' := 1, Step(p, s), s.regs;
    if fuel > 0 {
      var k1, s1, regs1 := SimActivate(p, s', m, recv, vs, s.w, fuel - 1);
      StepsAdd(p, s, 1, k1);
      k, s', regs' := 1 + k1, s1, regs1;
      Returned(p, s, x, t, locals, k, regs1, Activate(p, m, recv, vs, s.w, fuel - 1), fuel);
    }
  }

  /** The result of a bytecode call, seen by the activation that made it. */
  lemma Returned(p: Program, s: State, x: Ctx, t: int, locals: Locals, k: nat, regs': Regs, c: CallRes,
                 fuel: int)
    requires In(s, x, locals) && |locals| <= t && s.top.ip >= 0 && At(Code(p, s.top).code, s.top.ip + 1) == t
    requires k >= 1
    requires match c
      case Came(o, w) =>
        Steps(p, s, k) == Deliver(p, s.callers + [s.top], o, regs', w) && Keeps(s.regs, regs', s.top.fp + t + 1, 0, 0)
      case CallJunk => true
      case CallTimeout => Steps(p, s, k).Running? && k >= fuel
      case CallAbort => Steps(p, s, k).Crashed?
    ensures Simulates(p, s, k, Steps(p, s, k), regs', Finish(c, x.clos, locals), 5, |locals|, t, fuel)
  {
    hide Good, Step, Steps, Deliver, CodeOf;
    if c.Came? { Delivered(p, s, x, t, locals, k, c.o, regs', c.w, fuel); }
  }

  // ----- nodes -----

  lemma {:induction false} SimSeq(p: Program, s: State, x: Ctx, e: Node, t: int, b: Buf, locals: Locals, fuel: nat)
    returns (k: nat, s': State, regs': Regs)
    requires e.Seq? && Before(p, s, x, e, t, b, locals)
    ensures Does(p, s, x, e, t, locals, fuel, k, s', regs')
    decreases fuel, 1, e, 0
  {
    hide Good, Step, Steps, Deliver, Keeps, CodeOf;
    var blk := x.m.code.kind == Block;
    var b1 := Emit(p.lay, blk, e.first, t, b);
    EmitGrows(p.lay, blk, e.first, t, b);
    EmitGrows(p.lay, blk, e.second, t, b1);
    k, s', regs' := Sim(p, s, x, e.first, t, b, locals, fuel);
    var r := Eval(p, x, e.first, locals, s.w, fuel);
    if r.Norm? {
      var s1 := s';
      Arrived(p, s, x, locals, Size(p.lay, e.first), t, r.locals, r.w, s1);
      GoodLater(p, s, k);
      var k2, s2, regs2 := Sim(p, s1, x, e.second, t, b1, r.locals, fuel);
      Then(p, s, k, s1, Size(p.lay, e.first), t, r.locals, k2, s2, regs2, Eval(p, x, e.second, r.locals, r.w, fuel),
           Size(p.lay, e), |locals|, t, fuel, fuel);
      k, s', regs' := k + k2, s2, regs2;
    }
  }

  lemma {:induction false} SimAssign(p: Program, s: State, x: Ctx, e: Node, t: int, b: Buf, locals: Locals, fuel: nat)
    returns (k: nat, s': State, regs': Regs)
    requires e.Assign? && Before(p, s, x, e, t, b, locals)
    ensures Does(p, s, x, e, t, locals, fuel, k, s', regs')
    decreases fuel, 1, e, 0
  {
    hide Good, Step, Steps, Deliver, Keeps;
    var blk := x.m.code.kind == Block;
    var b1 := Emit(p.lay, blk, e.value, t, b);
    EmitGrows(p.lay, blk, e.value, t, b);
    k, s', regs' := Sim(p, s, x, e.value, t, b, locals, fuel);
    var r := Eval(p, x, e.value, locals, s.w, fuel);
    if r.Norm? {
      var s1 := s';
      Arrived(p, s, x, locals, Size(p.lay, e.value), t, r.locals, r.w, s1);
      var l := p.lay.At(e.id);
      SimSet(p, s1, x, l, t, b1, r.locals, fuel);
      Then(p, s, k, s1, Size(p.lay, e.value), t, r.locals, 1, Step(p, s1), s1.regs, Write(x, l, r.v, r.locals, r.w),
           Size(p.lay, e), |locals|, t, fuel, fuel);
      k, s', regs' := k + 1, Step(p, s1), s1.regs;
    }
  }

  /** One more step after `k`. */
  lemma StepAfter(p: Program, s: State, k: nat)
    ensures Steps(p, s, k + 1) == Step(p, Steps(p, s, k))
  {
    hide CodeOf, SendStep, WorldStep, JumpStep, LeaveStep, MoveStep;
    StepsAdd(p, s, k, 1);
    OneStep(p, Steps(p, s, k));
  }

  lemma NotShape(lay: Layout, blk: bool, e: Node, t: int, n: nat, b: Buf, c: Buf)
    requires e.Not? && Extends(Emit(lay, blk, e, t, b), c) && Sound(lay, e, t, n)
    ensures var b1 := Emit(lay, blk, e.value, t, b);
      Extends(b1, c) && Extends(Push(b1, [NOT, t, t]), c) && Sound(lay, e.value, t, n) &&
      |b1.code| == |b.code| + Size(lay, e.value) && Size(lay, e) == Size(lay, e.value) + 3
  {
    EmitGrows(lay, blk, e.value, t, b);
  }

  lemma EvalNot(p: Program, x: Ctx, e: Node, locals: Locals, w: World, fuel: nat)
    requires e.Not?
    ensures var r := Eval(p, x, e.value, locals, w, fuel);
      Eval(p, x, e, locals, w, fuel) == if r.Norm? then r.(v := if Truthy(r.v) then FalseV else TrueV) else r
  {}

  lemma {:induction false} SimNot(p: Program, s: State, x: Ctx, e: Node, t: int, b: Buf, locals: Locals, fuel: nat)
    returns (k: nat, s': State, regs': Regs)
    requires e.Not? && Before(p, s, x, e, t, b, locals)
    ensures Does(p, s, x, e, t, locals, fuel, k, s', regs')
    decreases fuel, 1, e, 0
  {
    hide Good, Step, Steps, Deliver, Call, Simulates, Keeps, Emit, Size, Eval, Sound, Extends, CodeOf;
    var b1 := Emit(p.lay, x.m.code.kind == Block, e.value, t, b);
    NotShape(p.lay, x.m.code.kind == Block, e, t, |locals|, b, Code(p, s.top));
    EvalNot(p, x, e, locals, s.w, fuel);
    k, s', regs' := Sim(p, s, x, e.value, t, b, locals, fuel);
    var r := Eval(p, x, e.value, locals, s.w, fuel);
    if r.Norm? {
      Settled(p, s, x, locals, k, s', regs', r, Size(p.lay, e.value), t, fuel);
      Fetch(b1, [NOT, t, t], Code(p, s.top));
      NotStep(p, s', t);
      StepAfter(p, s, k);
      var s2 := Step(p, s');
      Loads(p, s', r.locals, t, 3, if Truthy(r.v) then FalseV else TrueV, fuel);
      Then(p, s, k, s', Size(p.lay, e.value), t, r.locals, 1, s2, s'.regs, Eval(p, x, e, locals, s.w, fuel),
           Size(p.lay, e), |locals|, t, fuel, fuel);
      k, s', regs' := k + 1, s2, s'.regs;
    } else {
      Narrower(p, s, k, s', regs', r, Size(p.lay, e.value), |locals|, t, fuel, Size(p.lay, e), t);
    }
  }

  lemma NotStep(p: Program, s: State, t: int)
    requires s.Running? && 0 <= s.top.ip < |Code(p, s.top).code|
    requires At(Code(p, s.top).code, s.top.ip) == NOT
    requires At(Code(p, s.top).code, s.top.ip + 1) == At(Code(p, s.top).code, s.top.ip + 2) == t
    ensures Step(p, s) ==
      Next(s.callers, s.top, 3,
           s.regs[s.top.fp + t := if Truthy(Get(s.regs, s.top.fp + t)) then FalseV else TrueV], s.w)
  {}

  lemma LeaveStepOf(p: Program, s: State, op: int)
    requires s.Running? && 0 <= s.top.ip < |Code(p, s.top).code|
    requires Code(p, s.top).code[s.top.ip] == op && (op == RET || op == LRET || op == RAISE)
    ensures Step(p, s) == LeaveStep(p, op, s.callers, s.top, s.regs, s.w)
  {
    hide LeaveStep, CodeOf, Deliver, SendStep, WorldStep, JumpStep, MoveStep;
  }

  lemma {:induction false} SimRaise(p: Program, s: State, x: Ctx, e: Node, t: int, b: Buf, locals: Locals, fuel: nat)
    returns (k: nat, s': State, regs': Regs)
    requires e.Raise? && Before(p, s, x, e, t, b, locals)
    ensures Does(p, s, x, e, t, locals, fuel, k, s', regs')
    decreases fuel, 1, e, 0
  {
    hide Good, Steps, Deliver, Call;
    var b1 := Emit(p.lay, x.m.code.kind == Block, e.value, t, b);
    EmitGrows(p.lay, x.m.code.kind == Block, e.value, t, b);
    k, s', regs' := Sim(p, s, x, e.value, t, b, locals, fuel);
    var r := Eval(p, x, e.value, locals, s.w, fuel);
    if r.Norm? {
      Fetch(b1, [RAISE, t], Code(p, s.top));
      k, s', regs' := RaiseStep(p, s, k, s', Size(p.lay, e.value), t, r.v, r.locals, Size(p.lay, e), fuel);
    }
  }

  /** The step at a `RAISE` of register `t`, reached from `s`. */
  lemma RaiseStep(p: Program, s: State, k: nat, s1: State, size1: int, t: int, v: Value, l: Locals, size: int,
                  fuel: int)
    returns (k': nat, s': State, regs': Regs)
    requires s1.Running? && s.Running? && s.top.ip >= 0 && Steps(p, s, k) == s1 && s1.top.ip >= 0
    requires Advanced(s, size1, |l|, t, l, s1.w, s1) && Get(s1.regs, s1.top.fp + t) == v
    requires At(Code(p, s.top).code, s1.top.ip) == RAISE && At(Code(p, s.top).code, s1.top.ip + 1) == t
    ensures Simulates(p, s, k', s', regs', RaiseWith(p.env, v, l, s1.w), size, |l|, t, fuel)
  {
    hide Good, Steps, Deliver, Call, CodeOf;
    StepAfter(p, s, k);
    k', s', regs' := k + 1, Step(p, s1), s1.regs;
    match Wrap(p.env, v, s1.w)
    case None =>
    case Some((exc, w')) =>
      ThrowAnywhere(p, s.callers, s1.top, s1.top.ip, exc, s1.regs, w');
      assert s1.top.(ip := 0) == s.top.(ip := 0);
      assert s1.top.(ip := s1.top.ip) == s1.top;
  }

  lemma {:induction false} SimReturn(p: Program, s: State, x: Ctx, e: Node, t: int, b: Buf, locals: Locals, fuel: nat)
    returns (k: nat, s': State, regs': Regs)
    requires e.Return? && Before(p, s, x, e, t, b, locals)
    ensures Does(p, s, x, e, t, locals, fuel, k, s', regs')
    decreases fuel, 1, e, 0
  {
    hide Good, Step, Steps, Deliver, Call, CodeOf;
    var blk := x.m.code.kind == Block;
    var b1 := Emit(p.lay, blk, e.value, t, b);
    EmitGrows(p.lay, blk, e.value, t, b);
    k, s', regs' := Sim(p, s, x, e.value, t, b, locals, fuel);
    var r := Eval(p, x, e.value, locals, s.w, fuel);
    if r.Norm? {
      Fetch(b1, [if blk then LRET else RET, t], Code(p, s.top));
      LeaveStepOf(p, s', if blk then LRET else RET);
      StepAfter(p, s, k);
      k, s', regs' := k + 1, Step(p, s'), s'.regs;
    }
  }

  /** The state `k + 1` steps on, when the instruction after `k` steps is a conditional jump. */
  lemma Branch(p: Program, s: State, x: Ctx, locals: Locals, k: nat, s1: State, size1: int, t: int, l1: Locals, op: int,
               jump: int, b1: Buf)
    returns (s2: State)
    requires s1.Running? && s.Running? && Steps(p, s, k) == s1 && s1.top.ip == |b1.code| && In(s, x, locals)
    requires Advanced(s, size1, |locals|, t, l1, s1.w, s1) && (op == JMPIF || op == JMPIT)
    requires Extends(Push(b1, [op, t, jump]), Code(p, s.top))
    ensures Steps(p, s, k + 1) == s2 && s2.Running? && s2.regs == s1.regs && s2.w == s1.w && In(s2, x, l1)
    ensures Code(p, s2.top) == Code(p, s.top) && s2.top.fp == s1.top.fp == s.top.fp
    ensures var taken := (op == JMPIT) == Truthy(Get(s1.regs, s1.top.fp + t));
      s2.top.ip == s1.top.ip + (if taken then 3 + jump else 3) &&
      Advanced(s, size1 + if taken then 3 + jump else 3, |locals|, t, l1, s1.w, s2)
  {
    hide Good, Steps, Deliver, Call, CodeOf;
    Fetch(b1, [op, t, jump], Code(p, s.top));
    StepAfter(p, s, k);
    s2 := Step(p, s1);
  }

  /** A condition, and a second node that is skipped when the jump `op` is taken. */
  lemma {:induction false} SimGuarded(p: Program, s: State, x: Ctx, e: Node, c: Node, op: int, y: Node, t: int, b: Buf,
                                      locals: Locals, fuel: nat)
    returns (k: nat, s': State, regs': Regs)
    requires Before(p, s, x, c, t, b, locals) && Sound(p.lay, y, t, |locals|) && c < e && y < e
    requires op == JMPIF || op == JMPIT
    requires Extends(Emit(p.lay, x.m.code.kind == Block, y, t,
                          Push(Emit(p.lay, x.m.code.kind == Block, c, t, b), [op, t, Size(p.lay, y)])),
                     Code(p, s.top))
    ensures var r := Eval(p, x, c, locals, s.w, fuel);
      Simulates(p, s, k, s', regs',
                if !r.Norm? || (op == JMPIT) == Truthy(r.v) then r else Eval(p, x, y, r.locals, r.w, fuel),
                Size(p.lay, c) + 3 + Size(p.lay, y), |locals|, t, fuel)
    decreases fuel, 1, e, 0
  {
    hide Good, Step, Steps, Deliver, Keeps, Simulates, Emit, Eval, Size, Sound, Advanced, CodeOf;
    var blk := x.m.code.kind == Block;
    var b1 := Emit(p.lay, blk, c, t, b);
    var b2 := Push(b1, [op, t, Size(p.lay, y)]);
    var size := Size(p.lay, c) + 3 + Size(p.lay, y);
    EmitGrows(p.lay, blk, c, t, b);
    EmitGrows(p.lay, blk, y, t, b2);
    k, s', regs' := Sim(p, s, x, c, t, b, locals, fuel);
    var r := Eval(p, x, c, locals, s.w, fuel);
    if r.Norm? {
      Settled(p, s, x, locals, k, s', regs', r, Size(p.lay, c), t, fuel);
      var s2 := Branch(p, s, x, locals, k, s', Size(p.lay, c), t, r.locals, op, Size(p.lay, y), b1);
      if (op == JMPIT) == Truthy(r.v) {
        Reached(p, s, k + 1, s2, s2.regs, r, size, |locals|, t, fuel);
        k, s', regs' := k + 1, s2, s2.regs;
      } else {
        GoodLater(p, s, k + 1);
        var k3, s3, regs3 := Sim(p, s2, x, y, t, b2, r.locals, fuel);
        Then(p, s, k + 1, s2, Size(p.lay, c) + 3, t, r.locals, k3, s3, regs3, Eval(p, x, y, r.locals, r.w, fuel),
             size, |locals|, t, fuel, fuel);
        k, s', regs' := k + 1 + k3, s3, regs3;
      }
    } else {
      Narrower(p, s, k, s', regs', r, Size(p.lay, c), |locals|, t, fuel, size, t);
    }
  }

  lemma {:induction false} SimAnd(p: Program, s: State, x: Ctx, e: Node, t: int, b: Buf, locals: Locals, fuel: nat)
    returns (k: nat, s': State, regs': Regs)
    requires e.And? && Before(p, s, x, e, t, b, locals)
    ensures Does(p, s, x, e, t, locals, fuel, k, s', regs')
    decreases fuel, 1, e, 1
  {
    hide Good, Step, Steps, Deliver, Keeps, Simulates;
    EmitGrows(p.lay, x.m.code.kind == Block, e.right, t,
              Push(Emit(p.lay, x.m.code.kind == Block, e.left, t, b), [JMPIF, t, Size(p.lay, e.right)]));
    k, s', regs' := SimGuarded(p, s, x, e, e.left, JMPIF, e.right, t, b, locals, fuel);
  }

  lemma {:induction false} SimIf(p: Program, s: State, x: Ctx, e: Node, t: int, b: Buf, locals: Locals, fuel: nat)
    returns (k: nat, s': State, regs': Regs)
    requires e.IfCond? && e.ebody.None? && Before(p, s, x, e, t, b, locals)
    ensures Does(p, s, x, e, t, locals, fuel, k, s', regs')
    decreases fuel, 1, e, 1
  {
    hide Good, Step, Steps, Deliver, Keeps, Simulates, CodeOf;
    EmitGrows(p.lay, x.m.code.kind == Block, e.body, t,
              Push(Emit(p.lay, x.m.code.kind == Block, e.cond, t, b), [JMPIF, t, Size(p.lay, e.body)]));
    k, s', regs' := SimGuarded(p, s, x, e, e.cond, JMPIF, e.body, t, b, locals, fuel);
  }

  lemma {:induction false} SimUnless(p: Program, s: State, x: Ctx, e: Node, t: int, b: Buf, locals: Locals, fuel: nat)
    returns (k: nat, s': State, regs': Regs)
    requires e.Unless? && Before(p, s, x, e, t, b, locals)
    ensures Does(p, s, x, e, t, locals, fuel, k, s', regs')
    decreases fuel, 1, e, 1
  {
    hide Good, Step, Steps, Deliver, Keeps, Simulates, CodeOf;
    EmitGrows(p.lay, x.m.code.kind == Block, e.body, t,
              Push(Emit(p.lay, x.m.code.kind == Block, e.cond, t, b), [JMPIT, t, Size(p.lay, e.body)]));
    k, s', regs' := SimGuarded(p, s, x, e, e.cond, JMPIT, e.body, t, b, locals, fuel);
  }

  /** A jump of `n` bytes that ends a simulated piece of code. */
  lemma JumpAfter(p: Program, s: State, x: Ctx, k: nat, s1: State, r: Res, size1: int, n: nat, t: int, fuel: int,
                  jump: int,
                  b1: Buf)
    requires r.Norm? && s1.Running? && Simulates(p, s, k, s1, s1.regs, r, size1, n, t, fuel)
    requires s1.top.ip == |b1.code| && Extends(Push(b1, [JMPF, jump]), Code(p, s.top))
    ensures Simulates(p, s, k + 1, Step(p, s1), s1.regs, r, size1 + 2 + jump, n, t, fuel)
  {
    hide Good, Steps, Deliver, Call, CodeOf;
    Fetch(b1, [JMPF, jump], Code(p, s.top));
    StepAfter(p, s, k);
  }

  lemma IfElseParts(lay: Layout, blk: bool, e: Node, t: int, b: Buf, n: nat, c: Buf)
    requires e.IfCond? && e.ebody.Some? && Extends(Emit(lay, blk, e, t, b), c) && Sound(lay, e, t, n)
    ensures Sound(lay, e.cond, t, n) && Sound(lay, e.body, t, n) && Sound(lay, e.ebody.value, t, n)
    ensures Size(lay, e) == Size(lay, e.cond) + 3 + Size(lay, e.body) + 2 + Size(lay, e.ebody.value)
    ensures var b1 := Emit(lay, blk, e.cond, t, b);
      var b2 := Push(b1, [JMPIF, t, Size(lay, e.body) + 2]);
      var b3 := Emit(lay, blk, e.body, t, b2);
      var b4 := Push(b3, [JMPF, Size(lay, e.ebody.value)]);
      Extends(b1, c) && Extends(b2, c) && Extends(b3, c) && Extends(b4, c) &&
      Extends(Emit(lay, blk, e.ebody.value, t, b4), c) &&
      |b1.code| == |b.code| + Size(lay, e.cond) && |b2.code| == |b1.code| + 3 &&
      |b4.code| == |b2.code| + Size(lay, e.body) + 2
  {
    hide Emit, EmitArgs, Extends, Size, SizeArgs, Push, PushSend, PushGet, PushSet, HandlerSize, TryBody;
    IfElseShape(lay, blk, e, t, b, c);
  }

  lemma EvalIfElse(p: Program, x: Ctx, e: Node, locals: Locals, w: World, fuel: nat)
    requires e.IfCond? && e.ebody.Some?
    ensures var r := Eval(p, x, e.cond, locals, w, fuel);
      Eval(p, x, e, locals, w, fuel) ==
      if r.Norm? then Eval(p, x, if Truthy(r.v) then e.body else e.ebody.value, r.locals, r.w, fuel) else r
  {}

  lemma {:induction false} SimIfElse(p: Program, s: State, x: Ctx, e: Node, t: int, b: Buf, locals: Locals, fuel: nat)
    returns (k: nat, s': State, regs': Regs)
    requires e.IfCond? && e.ebody.Some? && Before(p, s, x, e, t, b, locals)
    ensures Does(p, s, x, e, t, locals, fuel, k, s', regs')
    decreases fuel, 1, e, 1
  {
    hide Good, Step, Steps, Deliver, Keeps, Simulates, Advanced, Emit, Size, Sound, Extends, Push, Eval, CodeOf;
    var blk, c, y, z := x.m.code.kind == Block, e.cond, e.body, e.ebody.value;
    var b1 := Emit(p.lay, blk, c, t, b);
    var b2 := Push(b1, [JMPIF, t, Size(p.lay, y) + 2]);
    var b3 := Emit(p.lay, blk, y, t, b2);
    var b4 := Push(b3, [JMPF, Size(p.lay, z)]);
    IfElseParts(p.lay, blk, e, t, b, |locals|, Code(p, s.top));
    EvalIfElse(p, x, e, locals, s.w, fuel);
    k, s', regs' := Sim(p, s, x, c, t, b, locals, fuel);
    var r := Eval(p, x, c, locals, s.w, fuel);
    if r.Norm? {
      Settled(p, s, x, locals, k, s', regs', r, Size(p.lay, c), t, fuel);
      var s2 := Branch(p, s, x, locals, k, s', Size(p.lay, c), t, r.locals, JMPIF, Size(p.lay, y) + 2, b1);
      GoodLater(p, s, k + 1);
      var k3, s3, regs3, r3;
      if Truthy(r.v) {
        r3 := Eval(p, x, y, r.locals, r.w, fuel);
        k3, s3, regs3 := SimThenJump(p, s2, x, e, y, t, b2, r.locals, Size(p.lay, z), fuel);
        Then(p, s, k + 1, s2, Size(p.lay, c) + 3, t, r.locals, k3, s3, regs3, r3, Size(p.lay, e), |locals|, t, fuel,
             fuel);
      } else {
        r3 := Eval(p, x, z, r.locals, r.w, fuel);
        k3, s3, regs3 := Sim(p, s2, x, z, t, b4, r.locals, fuel);
        Then(p, s, k + 1, s2, Size(p.lay, c) + 3 + Size(p.lay, y) + 2, t, r.locals, k3, s3, regs3, r3, Size(p.lay, e),
             |locals|, t, fuel, fuel);
      }
      k, s', regs' := k + 1 + k3, s3, regs3;
    } else {
      Narrower(p, s, k, s', regs', r, Size(p.lay, c), |locals|, t, fuel, Size(p.lay, e), t);
    }
  }

  /** A node inside `e` that is followed by a jump over `jump` bytes. */
  lemma {:induction false} SimThenJump(p: Program, s: State, x: Ctx, e: Node, y: Node, t: int, b: Buf, locals: Locals,
                                       jump: nat, fuel: nat)
    returns (k: nat, s': State, regs': Regs)
    requires y < e && Before(p, s, x, y, t, b, locals)
    requires Extends(Push(Emit(p.lay, x.m.code.kind == Block, y, t, b), [JMPF, jump]), Code(p, s.top))
    ensures Simulates(p, s, k, s', regs', Eval(p, x, y, locals, s.w, fuel), Size(p.lay, y) + 2 + jump, |locals|, t,
                      fuel)
    decreases fuel, 1, e, 0
  {
    hide Good, Step, Steps, Deliver, Keeps, Simulates, Advanced, Emit, Eval, Size, Sound, CodeOf;
    var b1 := Emit(p.lay, x.m.code.kind == Block, y, t, b);
    EmitGrows(p.lay, x.m.code.kind == Block, y, t, b);
    k, s', regs' := Sim(p, s, x, y, t, b, locals, fuel);
    var r := Eval(p, x, y, locals, s.w, fuel);
    if r.Norm? {
      Settled(p, s, x, locals, k, s', regs', r, Size(p.lay, y), t, fuel);
      Reached(p, s, k, s', s'.regs, r, Size(p.lay, y), |locals|, t, fuel);
      JumpAfter(p, s, x, k, s', r, Size(p.lay, y), |locals|, t, fuel, jump, b1);
      k, s', regs' := k + 1, Step(p, s'), s'.regs;
    } else {
      Narrower(p, s, k, s', regs', r, Size(p.lay, y), |locals|, t, fuel, Size(p.lay, y) + 2 + jump, t);
    }
  }

  /** The step at a `JMPB`. */
  lemma BackStep(p: Program, s: State, k: nat, s1: State, size1: int, t: int, l: Locals, back: int, b1: Buf)
    returns (s2: State)
    requires s.Running? && s1.Running? && Steps(p, s, k) == s1 && s1.top.ip == |b1.code|
    requires Advanced(s, size1, |l|, t, l, s1.w, s1) && Extends(Push(b1, [JMPB, back]), Code(p, s.top))
    ensures s2.Running? && Steps(p, s, k + 1) == s2 && s2.w == s1.w && Advanced(s, size1 - back, |l|, t, l, s1.w, s2)
  {
    hide Good, Steps, Deliver, Call, CodeOf;
    Fetch(b1, [JMPB, back], Code(p, s.top));
    StepAfter(p, s, k);
    s2 := Step(p, s1);
  }

  /** What is left of a loop whose condition held: its body, the jump back, and the loop again. */
  function Turn(p: Program, x: Ctx, e: Node, locals: Locals, w: World, fuel: nat): Res
    requires e.While?
  {
    var r := Eval(p, x, e.body, locals, w, fuel);
    if !r.Norm? then r else if fuel == 0 then Timeout else Eval(p, x, e, r.locals, r.w, fuel - 1)
  }

  lemma EvalWhile(p: Program, x: Ctx, e: Node, locals: Locals, w: World, fuel: nat)
    requires e.While?
    ensures var r := Eval(p, x, e.cond, locals, w, fuel);
      Eval(p, x, e, locals, w, fuel) == if r.Norm? && Truthy(r.v) then Turn(p, x, e, r.locals, r.w, fuel) else r
  {}

  lemma WhileParts(lay: Layout, blk: bool, e: Node, t: int, b: Buf, n: nat, c: Buf)
    requires e.While? && Extends(Emit(lay, blk, e, t, b), c) && Sound(lay, e, t, n)
    ensures Sound(lay, e.cond, t, n) && Sound(lay, e.body, t, n)
    ensures Size(lay, e) == Size(lay, e.cond) + 3 + Size(lay, e.body) + 2
    ensures var b1 := Emit(lay, blk, e.cond, t, b);
      var b2 := Push(b1, [JMPIF, t, Size(lay, e.body) + 2]);
      var b3 := Emit(lay, blk, e.body, t, b2);
      Extends(b1, c) && Extends(b2, c) && Extends(b3, c) &&
      Extends(Push(b3, [JMPB, Size(lay, e.cond) + Size(lay, e.body) + 3]), c) &&
      |b1.code| == |b.code| + Size(lay, e.cond) && |b2.code| == |b1.code| + 3 &&
      |b3.code| == |b2.code| + Size(lay, e.body)
  {
    hide Emit, EmitArgs, Extends, Size, SizeArgs, Push, PushSend, PushGet, PushSet, HandlerSize, TryBody;
    WhileShape(lay, blk, e, t, b, c);
  }

  lemma {:induction false} SimWhile(p: Program, s: State, x: Ctx, e: Node, t: int, b: Buf, locals: Locals, fuel: nat)
    returns (k: nat, s': State, regs': Regs)
    requires e.While? && Before(p, s, x, e, t, b, locals)
    ensures Does(p, s, x, e, t, locals, fuel, k, s', regs')
    decreases fuel, 1, e, 1
  {
    hide Good, Step, Steps, Deliver, Keeps, Simulates, Advanced, Emit, Size, Sound, Extends, Push, Eval, Turn, CodeOf;
    var blk, c, y := x.m.code.kind == Block, e.cond, e.body;
    EvalWhile(p, x, e, locals, s.w, fuel);
    var b1 := Emit(p.lay, blk, c, t, b);
    var b2 := Push(b1, [JMPIF, t, Size(p.lay, y) + 2]);
    WhileParts(p.lay, blk, e, t, b, |locals|, Code(p, s.top));
    k, s', regs' := Sim(p, s, x, c, t, b, locals, fuel);
    var r := Eval(p, x, c, locals, s.w, fuel);
    if r.Norm? {
      Settled(p, s, x, locals, k, s', regs', r, Size(p.lay, c), t, fuel);
      var s2 := Branch(p, s, x, locals, k, s', Size(p.lay, c), t, r.locals, JMPIF, Size(p.lay, y) + 2, b1);
      GoodLater(p, s, k + 1);
      if Truthy(r.v) {
        var k3, s3, regs3 := SimTurn(p, s2, x, e, t, b, r.locals, fuel);
        Then(p, s, k + 1, s2, Size(p.lay, c) + 3, t, r.locals, k3, s3, regs3, Turn(p, x, e, r.locals, r.w, fuel),
             Size(p.lay, e), |locals|, t, fuel, fuel);
        k, s', regs' := k + 1 + k3, s3, regs3;
      } else {
        Reached(p, s, k + 1, s2, s2.regs, r, Size(p.lay, e), |locals|, t, fuel);
        k, s', regs' := k + 1, s2, s2.regs;
      }
    } else {
      Narrower(p, s, k, s', regs', r, Size(p.lay, c), |locals|, t, fuel, Size(p.lay, e), t);
    }
  }

  lemma {:induction false} SimTurn(p: Program, s: State, x: Ctx, e: Node, t: int, b: Buf, locals: Locals, fuel: nat)
    returns (k: nat, s': State, regs': Regs)
    requires e.While? && Good(p, s) && In(s, x, locals) && |locals| <= t && Sound(p.lay, e, t, |locals|)
    requires s.top.ip == |b.code| + Size(p.lay, e.cond) + 3
    requires Extends(Emit(p.lay, x.m.code.kind == Block, e, t, b), Code(p, s.top))
    ensures Simulates(p, s, k, s', regs', Turn(p, x, e, locals, s.w, fuel), Size(p.lay, e.body) + 2, |locals|, t, fuel)
    decreases fuel, 1, e, 0
  {
    hide Good, Step, Steps, Deliver, Keeps, Simulates, Advanced, Emit, Size, Sound, Extends, Push, Eval, CodeOf;
    var blk, c, y := x.m.code.kind == Block, e.cond, e.body;
    var b2 := Push(Emit(p.lay, blk, c, t, b), [JMPIF, t, Size(p.lay, y) + 2]);
    var b3 := Emit(p.lay, blk, y, t, b2);
    WhileParts(p.lay, blk, e, t, b, |locals|, Code(p, s.top));
    k, s', regs' := Sim(p, s, x, y, t, b2, locals, fuel);
    var r := Eval(p, x, y, locals, s.w, fuel);
    var size := Size(p.lay, y);
    if r.Norm? {
      var back := Size(p.lay, c) + size + 3;
      Settled(p, s, x, locals, k, s', regs', r, size, t, fuel);
      var s4 := BackStep(p, s, k, s', size, t, r.locals, back, b3);
      GoodLater(p, s, k + 1);
      Arrived(p, s, x, locals, size - back, t, r.locals, r.w, s4);
      if fuel == 0 {
        StillRunning(p, s, k + 1, s4, size + 2, |locals|, t, fuel);
        k, s', regs' := k + 1, s4, s4.regs;
      } else {
        var k5, s5, regs5 := Sim(p, s4, x, e, t, b, r.locals, fuel - 1);
        Then(p, s, k + 1, s4, size - back, t, r.locals, k5, s5, regs5, Eval(p, x, e, r.locals, r.w, fuel - 1),
             size + 2, |locals|, t, fuel - 1, fuel);
        k, s', regs' := k + 1 + k5, s5, regs5;
      }
    } else {
      Narrower(p, s, k, s', regs', r, size, |locals|, t, fuel, size + 2, t);
    }
  }

  lemma StillRunning(p: Program, s: State, k: nat, s': State, size: int, n: nat, t: int, fuel: int)
    requires s.Running? && s.top.ip >= 0 && Steps(p, s, k) == s' && s'.Running? && k >= fuel
    ensures Simulates(p, s, k, s', s'.regs, Timeout, size, n, t, fuel)
  {}

  // ----- argument lists and sends -----

  /** What evaluating an argument list into the registers from `t` upwards must establish. */
  ghost predicate Collects(p: Program, s: State, k: nat, s': State, regs': Regs, v: Vals, size: int, n: nat, t: int,
                           fuel: int)
  {
    match v
    case Vals(vs, l, w) =>
      Steps(p, s, k) == s' && s.Running? && s.top.ip >= 0 && Advanced(s, size, n, t, l, w, s') &&
      HoldsArgs(vs, s'.regs, s.top.fp + t)
    case Stopped(r) => !r.Norm? && Simulates(p, s, k, s', regs', r, size, n, t, fuel)
  }

  ghost predicate BeforeArgs(p: Program, s: State, x: Ctx, es: Nodes, t: int, b: Buf, locals: Locals) {
    Good(p, s) && In(s, x, locals) && |locals| <= t && s.top.ip == |b.code| &&
    SoundArgs(p.lay, es, t, |locals|) && Extends(EmitArgs(p.lay, x.m.code.kind == Block, es, t, b), Code(p, s.top))
  }

  lemma {:induction false} EvalArgsCount(p: Program, x: Ctx, es: Nodes, locals: Locals, w: World, fuel: nat)
    ensures EvalArgs(p, x, es, locals, w, fuel).Vals? ==> |EvalArgs(p, x, es, locals, w, fuel).vs| == Count(es)
    decreases es
  {
    hide Eval;
    if es.More? {
      var r := Eval(p, x, es.head, locals, w, fuel);
      if r.Norm? { EvalArgsCount(p, x, es.rest, r.locals, r.w, fuel); }
    }
  }

  lemma ArgsParts(lay: Layout, blk: bool, es: Nodes, t: int, b: Buf, n: nat, c: Buf)
    requires es.More? && Extends(EmitArgs(lay, blk, es, t, b), c) && SoundArgs(lay, es, t, n)
    ensures Sound(lay, es.head, t, n) && SoundArgs(lay, es.rest, t + 1, n)
    ensures SizeArgs(lay, es) == Size(lay, es.head) + SizeArgs(lay, es.rest)
    ensures var b1 := Emit(lay, blk, es.head, t, b);
      Extends(b1, c) && Extends(EmitArgs(lay, blk, es.rest, t + 1, b1), c) &&
      |b1.code| == |b.code| + Size(lay, es.head)
  {
    hide Emit, EmitArgs, Extends, Size, SizeArgs, Push, PushSend, PushGet, PushSet, HandlerSize, TryBody;
    ArgsShape(lay, blk, es, t, b, c);
  }

  lemma {:induction false} SimArgs(p: Program, s: State, x: Ctx, es: Nodes, t: int, b: Buf, locals: Locals, fuel: nat)
    returns (k: nat, s': State, regs': Regs)
    requires BeforeArgs(p, s, x, es, t, b, locals)
    ensures Collects(p, s, k, s', regs', EvalArgs(p, x, es, locals, s.w, fuel), SizeArgs(p.lay, es), |locals|, t, fuel)
    decreases fuel, 1, es, 2
  {
    hide Good, Step, Steps, Deliver, Simulates, Emit, Eval, Size, Sound, Keeps, Advanced, HoldsLocals, HoldsArgs,
         Extends, CodeOf;
    k, s', regs' := 0, s, s.regs;
    match es
    case NoNodes => NoArgs(p, s, x, t, locals, fuel);
    case More(e, rest) =>
      var blk := x.m.code.kind == Block;
      var b1 := Emit(p.lay, blk, e, t, b);
      ArgsParts(p.lay, blk, es, t, b, |locals|, Code(p, s.top));
      k, s', regs' := Sim(p, s, x, e, t, b, locals, fuel);
      var r := Eval(p, x, e, locals, s.w, fuel);
      if r.Norm? {
        var s1 := s';
        Settled(p, s, x, locals, k, s1, regs', r, Size(p.lay, e), t, fuel);
        GoodLater(p, s, k);
        var k2, s2, regs2 := SimArgs(p, s1, x, rest, t + 1, b1, r.locals, fuel);
        Collected(p, s, k, s1, Size(p.lay, e), r.v, r.locals, k2, s2, regs2,
                  EvalArgs(p, x, rest, r.locals, r.w, fuel), SizeArgs(p.lay, rest), |locals|, t, fuel);
        k, s', regs' := k + k2, s2, regs2;
      } else {
        Narrower(p, s, k, s', regs', r, Size(p.lay, e), |locals|, t, fuel, SizeArgs(p.lay, es), t);
      }
  }

  lemma NoArgs(p: Program, s: State, x: Ctx, t: int, locals: Locals, fuel: nat)
    requires In(s, x, locals) && s.top.ip >= 0
    ensures Collects(p, s, 0, s, s.regs, Vals([], locals, s.w), 0, |locals|, t, fuel)
  {}

  lemma Collected(p: Program, s: State, k1: nat, s1: State, size1: int, v: Value, l1: Locals, k2: nat, s2: State,
                  regs2: Regs, vs: Vals, size2: int, n: nat, t: int, fuel: int)
    requires s.Running? && s1.Running? && s.top.ip >= 0 && n <= t && Steps(p, s, k1) == s1
    requires Advanced(s, size1, n, t, l1, s1.w, s1) && Get(s1.regs, s1.top.fp + t) == v
    requires Collects(p, s1, k2, s2, regs2, vs, size2, n, t + 1, fuel)
    ensures Collects(p, s, k1 + k2, s2, regs2, if vs.Vals? then vs.(vs := [v] + vs.vs) else vs, size1 + size2, n, t,
                     fuel)
  {
    hide Step, Deliver;
    match vs
    case Stopped(r) =>
      Narrower(p, s1, k2, s2, regs2, r, size2, n, t + 1, fuel, size2, t);
      Then(p, s, k1, s1, size1, t, l1, k2, s2, regs2, r, size1 + size2, n, t, fuel, fuel);
    case Vals(ws, l, w) =>
      StepsAdd(p, s, k1, k2);
      hide Steps;
      assert Get(s2.regs, s.top.fp + t) == v;
      forall i | 0 <= i < |[v] + ws| ensures Get(s2.regs, s.top.fp + t + i) == ([v] + ws)[i] {
        if i > 0 { assert Get(s2.regs, s1.top.fp + (t + 1) + (i - 1)) == ws[i - 1]; }
      }
  }

  /** The step at a `TUPLE` or `LIST` that gathers the registers from `t` upwards into register `t`. */
  lemma GatherStep(p: Program, s: State, op: int, t: int, vs: seq<Value>, b: Buf)
    requires s.Running? && s.top.ip == |b.code| && (op == TUPLE || op == LIST)
    requires Extends(Push(b, [op, t, t, |vs|]), Code(p, s.top)) && HoldsArgs(vs, s.regs, s.top.fp + t)
    ensures var (v, w') := if op == TUPLE then p.env.makeTuple(s.w, vs) else p.env.makeList(s.w, vs);
      Step(p, s) == Next(s.callers, s.top, 4, s.regs[s.top.fp + t := v], w')
  {
    hide Deliver, Call, MoveStep, LeaveStep, JumpStep, CodeOf;
    Fetch(b, [op, t, t, |vs|], Code(p, s.top));
    assert Window(s.regs, s.top.fp + t, |vs|) == vs;
  }

  lemma {:induction false} SimGather(p: Program, s: State, x: Ctx, e: Node, t: int, b: Buf, locals: Locals, fuel: nat)
    returns (k: nat, s': State, regs': Regs)
    requires (e.Tuple? || e.List?) && Before(p, s, x, e, t, b, locals)
    ensures Does(p, s, x, e, t, locals, fuel, k, s', regs')
    decreases fuel, 1, e, 1
  {
    hide Good, Step, Steps, Deliver, Simulates, CodeOf;
    var b1 := EmitArgs(p.lay, x.m.code.kind == Block, e.args, t, b);
    EmitArgsGrows(p.lay, x.m.code.kind == Block, e.args, t, b);
    k, s', regs' := SimArgs(p, s, x, e.args, t, b, locals, fuel);
    EvalArgsCount(p, x, e.args, locals, s.w, fuel);
    match EvalArgs(p, x, e.args, locals, s.w, fuel)
    case Stopped(r) =>
      Narrower(p, s, k, s', regs', r, SizeArgs(p.lay, e.args), |locals|, t, fuel, Size(p.lay, e), t);
    case Vals(vs, l, w) =>
      GatherStep(p, s', if e.Tuple? then TUPLE else LIST, t, vs, b1);
      StepAfter(p, s, k);
      k, s', regs' := k + 1, Step(p, s'), s'.regs;
      Reached(p, s, k, s', regs', Eval(p, x, e, locals, s.w, fuel), Size(p.lay, e), |locals|, t, fuel);
  }

  /** Arguments and a send, once the receiver is in register `t`. */
  function SendWith(p: Program, x: Ctx, recv: Value, name: string, args: Nodes, locals: Locals, w: World,
                    fuel: nat): Res {
    match EvalArgs(p, x, args, locals, w, fuel)
    case Stopped(r) => r
    case Vals(vs, l, w') => EvalCall(p, x, recv, name, vs, l, w', fuel)
  }

  /** The state after collecting arguments stands at the send. */
  lemma ArgsAtSend(p: Program, s: State, x: Ctx, recv: Value, name: string, vs: seq<Value>, size: int, t: int, b: Buf,
                   locals: Locals, l: Locals, w: World, s': State)
    requires Good(p, s') && In(s, x, locals) && |locals| <= t && Get(s.regs, s.top.fp + t) == recv
    requires Advanced(s, size, |locals|, t + 1, l, w, s') && HoldsArgs(vs, s'.regs, s.top.fp + t + 1)
    requires s.top.ip + size == |b.code| && Extends(PushSend(b, t, name, t, |vs|), Code(p, s.top))
    ensures AtSend(p, s', x, recv, name, vs, t, b, l)
  {
    hide Good, CodeOf, Extends, PushSend;
    assert Get(s'.regs, s.top.fp + t) == recv;
  }

  lemma Lower(s: State, size: int, n: nat, t: int, l: Locals, w: World, s': State, t': int)
    requires Advanced(s, size, n, t, l, w, s') && t' <= t
    ensures Advanced(s, size, n, t', l, w, s')
  {}

  lemma {:induction false} SimSendWith(p: Program, s: State, x: Ctx, e: Node, recv: Value, name: string, args: Nodes,
                                       t: int, b: Buf, locals: Locals, fuel: nat)
    returns (k: nat, s': State, regs': Regs)
    requires args < e && BeforeArgs(p, s, x, args, t + 1, b, locals) && |locals| <= t
    requires Get(s.regs, s.top.fp + t) == recv
    requires Extends(PushSend(EmitArgs(p.lay, x.m.code.kind == Block, args, t + 1, b), t, name, t, Count(args)),
                     Code(p, s.top))
    ensures Simulates(p, s, k, s', regs', SendWith(p, x, recv, name, args, locals, s.w, fuel),
                      SizeArgs(p.lay, args) + 5, |locals|, t, fuel)
    decreases fuel, 1, e, 0
  {
    hide Good, Step, Steps, Deliver, Simulates, Emit, Eval, Size, Sound, Keeps, Advanced, HoldsLocals, HoldsArgs,
         EvalCall, AtSend, EvalArgs, EmitArgs, SizeArgs, Extends, PushSend, CodeOf;
    var b1 := EmitArgs(p.lay, x.m.code.kind == Block, args, t + 1, b);
    var size := SizeArgs(p.lay, args);
    EmitArgsGrows(p.lay, x.m.code.kind == Block, args, t + 1, b);
    k, s', regs' := SimArgs(p, s, x, args, t + 1, b, locals, fuel);
    EvalArgsCount(p, x, args, locals, s.w, fuel);
    match EvalArgs(p, x, args, locals, s.w, fuel)
    case Stopped(r) => Narrower(p, s, k, s', regs', r, size, |locals|, t + 1, fuel, size + 5, t);
    case Vals(vs, l, w) =>
      var s1 := s';
      GoodLater(p, s, k);
      ArgsAtSend(p, s, x, recv, name, vs, size, t, b1, locals, l, w, s1);
      Lower(s, size, |locals|, t + 1, l, w, s1, t);
      Arrived(p, s, x, locals, size, t, l, w, s1);
      var k2, s2, regs2 := SimCall(p, s1, x, recv, name, vs, t, b1, l, fuel);
      Then(p, s, k, s1, size, t, l, k2, s2, regs2, EvalCall(p, x, recv, name, vs, l, w, fuel), size + 5, |locals|, t,
           fuel, fuel);
      k, s', regs' := k + k2, s2, regs2;
  }

  lemma SendParts(lay: Layout, blk: bool, e: Node, t: int, b: Buf, n: nat, c: Buf)
    requires e.Send? && Extends(Emit(lay, blk, e, t, b), c) && Sound(lay, e, t, n)
    ensures if Markov(lay, e) then ReadableLoc(lay.At(e.id), n) else Sound(lay, e.recv, t, n)
    ensures SoundArgs(lay, e.args, t + 1, n)
    ensures var m := Markov(lay, e);
      var b1 := if m then PushGet(b, lay.At(e.id), t) else Emit(lay, blk, e.recv, t, b);
      var size1 := if m then GetSize(lay.At(e.id)) else Size(lay, e.recv);
      Extends(b1, c) && Extends(EmitArgs(lay, blk, e.args, t + 1, b1), c) &&
      Extends(PushSend(EmitArgs(lay, blk, e.args, t + 1, b1), t, if m then "apply" else e.name, t, Count(e.args)), c) &&
      |b1.code| == |b.code| + size1 && Size(lay, e) == size1 + SizeArgs(lay, e.args) + 5
  {
    hide Emit, EmitArgs, Extends, Size, SizeArgs, Push, PushSend, PushGet, PushSet, HandlerSize, TryBody;
    SendShape(lay, blk, e, t, b, c);
  }

  lemma EvalSend(p: Program, x: Ctx, e: Node, locals: Locals, w: World, fuel: nat)
    requires e.Send?
    ensures var m := Markov(p.lay, e);
      var r := if m then Read(x, p.lay.At(e.id), locals, w) else Eval(p, x, e.recv, locals, w, fuel);
      Eval(p, x, e, locals, w, fuel) ==
      if r.Norm? then SendWith(p, x, r.v, if m then "apply" else e.name, e.args, r.locals, r.w, fuel) else r
  {}

  lemma {:induction false} SimSend(p: Program, s: State, x: Ctx, e: Node, t: int, b: Buf, locals: Locals, fuel: nat)
    returns (k: nat, s': State, regs': Regs)
    requires e.Send? && Before(p, s, x, e, t, b, locals)
    ensures Does(p, s, x, e, t, locals, fuel, k, s', regs')
    decreases fuel, 1, e, 1
  {
    hide Good, Step, Steps, Deliver, Simulates, Emit, Eval, Size, Sound, Keeps, Advanced, HoldsLocals, EmitArgs,
         SizeArgs, Extends, PushSend, SendWith, Read, GetSize, PushGet, ReadableLoc, SoundArgs, CodeOf;
    var blk, m := x.m.code.kind == Block, Markov(p.lay, e);
    SendParts(p.lay, blk, e, t, b, |locals|, Code(p, s.top));
    EvalSend(p, x, e, locals, s.w, fuel);
    var b1 := if m then PushGet(b, p.lay.At(e.id), t) else Emit(p.lay, blk, e.recv, t, b);
    var size1 := if m then GetSize(p.lay.At(e.id)) else Size(p.lay, e.recv);
    var r := if m then Read(x, p.lay.At(e.id), locals, s.w) else Eval(p, x, e.recv, locals, s.w, fuel);
    if m {
      SimGet(p, s, x, p.lay.At(e.id), t, b, locals, fuel);
      k, s', regs' := 1, Step(p, s), s.regs;
    } else {
      k, s', regs' := Sim(p, s, x, e.recv, t, b, locals, fuel);
    }
    if r.Norm? {
      var s1 := s';
      var name := if m then "apply" else e.name;
      Settled(p, s, x, locals, k, s1, regs', r, size1, t, fuel);
      GoodLater(p, s, k);
      var k2, s2, regs2 := SimSendWith(p, s1, x, e, r.v, name, e.args, t, b1, r.locals, fuel);
      Then(p, s, k, s1, size1, t, r.locals, k2, s2, regs2, SendWith(p, x, r.v, name, e.args, r.locals, r.w, fuel),
           Size(p.lay, e), |locals|, t, fuel, fuel);
      k, s', regs' := k + k2, s2, regs2;
    } else {
      Narrower(p, s, k, s', regs', r, size1, |locals|, t, fuel, Size(p.lay, e), t);
    }
  }

  /** The state after loading `v` into register `t`. */
  lemma Loaded(p: Program, s: State, x: Ctx, locals: Locals, t: int, size: int, v: Value)
    returns (s': State)
    requires In(s, x, locals) && s.top.ip >= 0 && |locals| <= t
    requires Step(p, s) == Next(s.callers, s.top, size, s.regs[s.top.fp + t := v], s.w)
    ensures s' == Step(p, s) && s'.Running? && s'.regs == s.regs[s.top.fp + t := v] && s'.top.fp == s.top.fp
    ensures Advanced(s, size, |locals|, t, locals, s.w, s') && In(s', x, locals) && s'.callers == s.callers
    ensures Code(p, s'.top) == Code(p, s.top) && s'.top.ip == s.top.ip + size && s'.w == s.w
  {
    hide Step, CodeOf;
    s' := Step(p, s);
  }

  lemma SelfStep(p: Program, s: State, x: Ctx, locals: Locals, t: int, b: Buf)
    requires In(s, x, locals) && s.top.ip == |b.code| && Extends(Push(b, [SELF, t]), Code(p, s.top))
    ensures Step(p, s) == Next(s.callers, s.top, 2, s.regs[s.top.fp + t := x.self], s.w)
  {
    hide Deliver, Call, CodeOf;
    Fetch(b, [SELF, t], Code(p, s.top));
  }

  lemma PooledStep(p: Program, s: State, t: int, b: Buf, op: int, name: string, c: Template)
    requires s.Running? && s.top.ip == |b.code| && (op == LOADS || op == LOADC)
    requires Extends(if op == LOADS then PushLoadString(b, t, name) else PushLoadCode(b, t, c), Code(p, s.top))
    ensures Step(p, s) ==
      Next(s.callers, s.top, 3,
           s.regs[s.top.fp + t := if op == LOADS then StrV(name) else MethodV(MethodRef(c, s.top.clos))], s.w)
  {
    hide Deliver, Call, CodeOf;
    Fetch(b, [op, t, if op == LOADS then |b.strs| else |b.codes|], Code(p, s.top).(strs := b.strs, codes := b.codes));
  }

  lemma {:induction false} SimNamedCall(p: Program, s: State, x: Ctx, e: Node, t: int, b: Buf, locals: Locals,
                                        fuel: nat)
    returns (k: nat, s': State, regs': Regs)
    requires e.Named? && p.lay.At(e.id).None? && Before(p, s, x, e, t, b, locals)
    ensures Does(p, s, x, e, t, locals, fuel, k, s', regs')
    decreases fuel, 1, e, 1
  {
    hide Good, Step, Steps, Deliver, Simulates, Keeps, Advanced, Sound, EvalCall;
    var b1 := Push(b, [SELF, t]);
    SelfStep(p, s, x, locals, t, b);
    OneStep(p, s);
    var s1 := Loaded(p, s, x, locals, t, 2, x.self);
    GoodLater(p, s, 1);
    var k2, s2, regs2 := SimCall(p, s1, x, x.self, e.name, [], t, b1, locals, fuel);
    Then(p, s, 1, s1, 2, t, locals, k2, s2, regs2, EvalCall(p, x, x.self, e.name, [], locals, s.w, fuel), 7, |locals|,
         t,
         fuel, fuel);
    k, s', regs' := 1 + k2, s2, regs2;
  }

  lemma {:induction false} SimDef(p: Program, s: State, x: Ctx, e: Node, t: int, b: Buf, locals: Locals, fuel: nat)
    returns (k: nat, s': State, regs': Regs)
    requires e.Def? && Before(p, s, x, e, t, b, locals)
    ensures Does(p, s, x, e, t, locals, fuel, k, s', regs')
    decreases fuel, 1, e, 1
  {
    hide Good, Step, Steps, Deliver, Simulates, Keeps, Advanced, Sound, EvalCall, CodeOf;
    var c := Template(e.scope, Method);
    var m := MethodV(MethodRef(c, x.clos));
    var b1 := Push(b, [SELF, t]);
    var b2 := PushLoadString(b1, t + 1, e.name);
    var b3 := PushLoadCode(b2, t + 2, c);
    SelfStep(p, s, x, locals, t, b);
    var s1 := Loaded(p, s, x, locals, t, 2, x.self);
    PooledStep(p, s1, t + 1, b1, LOADS, e.name, c);
    var s2 := Loaded(p, s1, x, locals, t + 1, 3, StrV(e.name));
    PooledStep(p, s2, t + 2, b2, LOADC, e.name, c);
    var s3 := Loaded(p, s2, x, locals, t + 2, 3, m);
    ThreeSteps(p, s, s1, s2, s3, x, locals, t);
    GoodLater(p, s, 3);
    assert HoldsArgs([StrV(e.name), m], s3.regs, s3.top.fp + t + 1);
    var k2, s4, regs4 := SimCall(p, s3, x, x.self, "add_method", [StrV(e.name), m], t, b3, locals, fuel);
    Then(p, s, 3, s3, 8, t, locals, k2, s4, regs4,
         EvalCall(p, x, x.self, "add_method", [StrV(e.name), m], locals, s.w, fuel), 13, |locals|, t, fuel, fuel);
    k, s', regs' := 3 + k2, s4, regs4;
  }

  lemma ThreeSteps(p: Program, s: State, s1: State, s2: State, s3: State, x: Ctx, locals: Locals, t: int)
    requires In(s, x, locals) && s1.Running? && s2.Running? && s3.Running? && |locals| <= t
    requires s1 == Step(p, s) && s2 == Step(p, s1) && s3 == Step(p, s2)
    requires Advanced(s, 2, |locals|, t, locals, s.w, s1) && Advanced(s1, 3, |locals|, t + 1, locals, s.w, s2)
    requires Advanced(s2, 3, |locals|, t + 2, locals, s.w, s3)
    ensures Steps(p, s, 3) == s3 && Advanced(s, 8, |locals|, t, locals, s.w, s3)
  {
    OneStep(p, s);
    hide Step;
    StepAfter(p, s, 1);
    StepAfter(p, s, 2);
  }

  lemma AssignOpParts(lay: Layout, blk: bool, e: Node, t: int, b: Buf, n: nat, c: Buf)
    requires e.AssignOp? && Extends(Emit(lay, blk, e, t, b), c) && Sound(lay, e, t, n)
    ensures ReadableLoc(lay.At(e.id), n) && WritableLoc(lay.At(e.id), n, t) && Sound(lay, e.value, t + 1, n)
    ensures var l := lay.At(e.id);
      var b1 := PushGet(b, l, t);
      var b2 := Emit(lay, blk, e.value, t + 1, b1);
      var b3 := PushSend(b2, t, e.op, t, 1);
      Extends(b1, c) && Extends(b2, c) && Extends(b3, c) && Extends(PushSet(b3, l, t), c) &&
      |b1.code| == |b.code| + GetSize(l) && |b2.code| == |b1.code| + Size(lay, e.value) &&
      |b3.code| == |b2.code| + 5 && Size(lay, e) == GetSize(l) + Size(lay, e.value) + 5 + SetSize(l)
  {
    hide Emit, EmitArgs, Extends, Size, SizeArgs, Push, PushSend, PushGet, PushSet, HandlerSize, TryBody;
    AssignOpShape(lay, blk, e, t, b, c);
  }

  /** The part of an operator assignment after its operator was applied. */
  lemma SetResult(p: Program, s: State, x: Ctx, l: Option<Loc>, t: int, b: Buf, locals: Locals, k: nat, s1: State,
                  regs1: Regs, r: Res, size1: int, fuel: nat)
    returns (k': nat, s': State, regs': Regs)
    requires In(s, x, locals) && |locals| <= t && s.top.ip + size1 == |b.code|
    requires WritableLoc(l, |locals|, t) && Extends(PushSet(b, l, t), Code(p, s.top))
    requires Simulates(p, s, k, s1, regs1, r, size1, |locals|, t, fuel)
    ensures Simulates(p, s, k', s', regs', WriteTo(x, l, r), size1 + SetSize(l), |locals|, t, fuel)
  {
    hide Good, Step, Steps, Deliver, Simulates, Keeps, Advanced, Extends, PushSet, SetSize, WritableLoc, Write,
         CodeOf;
    k', s', regs' := k, s1, regs1;
    if r.Norm? {
      Settled(p, s, x, locals, k, s1, regs1, r, size1, t, fuel);
      SimSet(p, s1, x, l, t, b, r.locals, fuel);
      Then(p, s, k, s1, size1, t, r.locals, 1, Step(p, s1), s1.regs, Write(x, l, r.v, r.locals, r.w),
           size1 + SetSize(l), |locals|, t, fuel, fuel);
      k', s', regs' := k + 1, Step(p, s1), s1.regs;
    } else {
      Narrower(p, s, k, s1, regs1, r, size1, |locals|, t, fuel, size1 + SetSize(l), t);
    }
  }

  /** Operand and operator of an operator assignment, once the variable's value is in register `t`. */
  lemma {:induction false} SimOperator(p: Program, s: State, x: Ctx, e: Node, t: int, b: Buf, locals: Locals,
                                       recv: Value,
                                       fuel: nat)
    returns (k: nat, s': State, regs': Regs)
    requires e.AssignOp? && Before(p, s, x, e.value, t + 1, b, locals) && |locals| <= t
    requires Get(s.regs, s.top.fp + t) == recv
    requires Extends(PushSend(Emit(p.lay, x.m.code.kind == Block, e.value, t + 1, b), t, e.op, t, 1), Code(p, s.top))
    ensures var r := Eval(p, x, e.value, locals, s.w, fuel);
      Simulates(p, s, k, s', regs', if r.Norm? then EvalCall(p, x, recv, e.op, [r.v], r.locals, r.w, fuel) else r,
                Size(p.lay, e.value) + 5, |locals|, t, fuel)
    decreases fuel, 1, e, 0
  {
    hide Good, Step, Steps, Deliver, Simulates, Keeps, Advanced, Emit, Eval, Size, Sound, EvalCall, HoldsLocals,
         AtSend, Extends, PushSend, CodeOf;
    var b1 := Emit(p.lay, x.m.code.kind == Block, e.value, t + 1, b);
    var size := Size(p.lay, e.value);
    EmitGrows(p.lay, x.m.code.kind == Block, e.value, t + 1, b);
    k, s', regs' := Sim(p, s, x, e.value, t + 1, b, locals, fuel);
    var r := Eval(p, x, e.value, locals, s.w, fuel);
    if r.Norm? {
      var s1 := s';
      Settled(p, s, x, locals, k, s1, regs', r, size, t + 1, fuel);
      assert HoldsArgs([r.v], s1.regs, s.top.fp + t + 1);
      GoodLater(p, s, k);
      ArgsAtSend(p, s, x, recv, e.op, [r.v], size, t, b1, locals, r.locals, r.w, s1);
      Lower(s, size, |locals|, t + 1, r.locals, r.w, s1, t);
      var k2, s2, regs2 := SimCall(p, s1, x, recv, e.op, [r.v], t, b1, r.locals, fuel);
      Then(p, s, k, s1, size, t, r.locals, k2, s2, regs2, EvalCall(p, x, recv, e.op, [r.v], r.locals, r.w, fuel),
           size + 5, |locals|, t, fuel, fuel);
      k, s', regs' := k + k2, s2, regs2;
    } else {
      Narrower(p, s, k, s', regs', r, size, |locals|, t + 1, fuel, size + 5, t);
    }
  }

  lemma EvalAssignOp(p: Program, x: Ctx, e: Node, locals: Locals, w: World, fuel: nat)
    requires e.AssignOp?
    ensures var l := p.lay.At(e.id);
      var r := Read(x, l, locals, w);
      Eval(p, x, e, locals, w, fuel) ==
      if !r.Norm? then r
      else
        var r2 := Eval(p, x, e.value, r.locals, r.w, fuel);
        WriteTo(x, l, if r2.Norm? then EvalCall(p, x, r.v, e.op, [r2.v], r2.locals, r2.w, fuel) else r2)
  {}

  lemma {:induction false} SimAssignOp(p: Program, s: State, x: Ctx, e: Node, t: int, b: Buf, locals: Locals, fuel: nat)
    returns (k: nat, s': State, regs': Regs)
    requires e.AssignOp? && Before(p, s, x, e, t, b, locals)
    ensures Does(p, s, x, e, t, locals, fuel, k, s', regs')
    decreases fuel, 1, e, 1
  {
    hide Good, Step, Steps, Deliver, Simulates, Keeps, Advanced, Emit, Eval, Size, Sound, EvalCall, HoldsLocals,
         Extends, PushSend, PushGet, PushSet, Read, WriteTo, ReadableLoc, WritableLoc, GetSize, SetSize, CodeOf;
    var blk, l := x.m.code.kind == Block, p.lay.At(e.id);
    AssignOpParts(p.lay, blk, e, t, b, |locals|, Code(p, s.top));
    EvalAssignOp(p, x, e, locals, s.w, fuel);
    var b1 := PushGet(b, l, t);
    var b3 := PushSend(Emit(p.lay, blk, e.value, t + 1, b1), t, e.op, t, 1);
    var r := Read(x, l, locals, s.w);
    SimGet(p, s, x, l, t, b, locals, fuel);
    k, s', regs' := 1, Step(p, s), s.regs;
    if r.Norm? {
      var s1 := s';
      Settled(p, s, x, locals, k, s1, regs', r, GetSize(l), t, fuel);
      GoodLater(p, s, k);
      var r2 := Eval(p, x, e.value, r.locals, r.w, fuel);
      var r3 := if r2.Norm? then EvalCall(p, x, r.v, e.op, [r2.v], r2.locals, r2.w, fuel) else r2;
      var k2, s2, regs2 := SimOperator(p, s1, x, e, t, b1, r.locals, r.v, fuel);
      k2, s2, regs2 := SetResult(p, s1, x, l, t, b3, r.locals, k2, s2, regs2, r3, Size(p.lay, e.value) + 5, fuel);
      Then(p, s, k, s1, GetSize(l), t, r.locals, k2, s2, regs2, WriteTo(x, l, r3), Size(p.lay, e), |locals|, t, fuel,
           fuel);
      k, s', regs' := k + k2, s2, regs2;
    } else {
      Narrower(p, s, k, s', regs', r, GetSize(l), |locals|, t, fuel, Size(p.lay, e), t);
    }
  }

  // ----- try -----

  lemma TryParts(lay: Layout, blk: bool, e: Node, t: int, b: Buf, n: nat, c: Buf)
    requires e.Try? && Extends(Emit(lay, blk, e, t, b), c) && Sound(lay, e, t, n)
    ensures Sound(lay, e.body, t, n) && HandlerSize(lay, e) >= 0
    ensures var h := |b.code| + Size(lay, e.body) + 6;
      var b1 := Push(b, [REGE, t, h]);
      var b2 := Emit(lay, blk, e.body, t, b1);
      Extends(b1, c) && Extends(b2, c) && Extends(Push(b2, [POPE, JMPF, HandlerSize(lay, e)]), c) &&
      |b2.code| == |b.code| + 3 + Size(lay, e.body) && |TryBody(lay, blk, e, t, b).code| == h &&
      Extends(TryBody(lay, blk, e, t, b), c) && Size(lay, e) == Size(lay, e.body) + 6 + HandlerSize(lay, e)
  {
    hide Emit, EmitArgs, Extends, Size, SizeArgs, Push, PushSend, PushGet, PushSet, HandlerSize, TryBody;
    TryShape(lay, blk, e, t, b, c);
  }

  lemma RegeStep(p: Program, s: State, x: Ctx, locals: Locals, t: int, h: int, b: Buf) returns (s1: State)
    requires In(s, x, locals) && s.top.ip == |b.code| && Extends(Push(b, [REGE, t, h]), Code(p, s.top))
    ensures s1 == Step(p, s) && In(s1, x, locals) && Code(p, s1.top) == Code(p, s.top)
    ensures s1 == Running(s.callers, s.top.(ip := s.top.ip + 3, es := s.top.es + [Handler(t, h)]), s.regs, s.w)
  {
    hide Deliver, Call, CodeOf;
    Fetch(b, [REGE, t, h], Code(p, s.top));
    s1 := Step(p, s);
  }

  /** A protected body that ends normally drops its handler and jumps over the handler's code. */
  lemma Unprotected(p: Program, s: State, k: nat, s1: State, s2: State, h: Handler, size: int, t: int, l: Locals,
                    jump: int, b: Buf)
    returns (s4: State)
    requires s.Running? && s2.Running?
    requires s1 == Running(s.callers, s.top.(ip := s.top.ip + 3, es := s.top.es + [h]), s.regs, s.w)
    requires Steps(p, s, k) == s2 && Advanced(s1, size, |l|, t, l, s2.w, s2) && s2.top.ip == |b.code|
    requires Extends(Push(b, [POPE, JMPF, jump]), Code(p, s.top))
    ensures s4.Running? && Steps(p, s, k + 2) == s4 && s4.regs == s2.regs && s4.top.fp == s.top.fp && s4.w == s2.w
    ensures Advanced(s, size + 6 + jump, |l|, t, l, s2.w, s4)
  {
    hide Deliver, Call, MoveStep, WorldStep, LeaveStep, CodeOf;
    Fetch(b, [POPE, JMPF, jump], Code(p, s.top));
    assert (s.top.es + [h])[..|s.top.es|] == s.top.es;
    var s3 := Next(s2.callers, s2.top.(es := s.top.es), 1, s2.regs, s2.w);
    assert Step(p, s2) == s3;
    s4 := Next(s3.callers, s3.top, 2 + jump, s3.regs, s3.w);
    assert Step(p, s3) == s4;
    hide Step;
    StepAfter(p, s, k);
    StepAfter(p, s, k + 1);
  }

  /** An exception in a protected body reaches the handler, with the exception in the try's register. */
  lemma Caught(p: Program, s: State, s1: State, k: nat, s2: State, regs2: Regs, h: Handler, exc: nat, l: Locals,
               w: World,
               size: int, t: int, fuel: int)
    requires s.Running? && s.top.ip >= 0 && Step(p, s) == s1 && |l| <= t && h.reg == t
    requires s1 == Running(s.callers, s.top.(ip := s.top.ip + 3, es := s.top.es + [h]), s.regs, s.w)
    requires Simulates(p, s1, k, s2, regs2, Exc(exc, l, w), size, |l|, t, fuel)
    ensures s2.Running? && Steps(p, s, k + 1) == s2 && s2.w == w && s2.top.fp == s.top.fp
    ensures Advanced(s, h.ip - s.top.ip, |l|, t, l, w, s2) && Get(s2.regs, s2.top.fp + t) == ExcV(exc)
  {
    hide Step, CodeOf;
    OneStep(p, s);
    StepsAdd(p, s, 1, k);
    hide Steps;
    var f := s1.top.(ip := 0);
    assert (s.callers + [f])[..|s.callers|] == s.callers;
    assert (s.top.es + [h])[..|s.top.es|] == s.top.es;
  }

  /** The other ways out of a protected body pass the handler by. */
  lemma Passed(p: Program, s: State, s1: State, k: nat, s2: State, regs2: Regs, r: Res, size: int, size': int, n: nat,
               t: int, fuel: int)
    requires s.Running? && s.top.ip >= 0 && Step(p, s) == s1 && s1.Running?
    requires s1.callers == s.callers && s1.top.fp == s.top.fp && s1.regs == s.regs
    requires Simulates(p, s1, k, s2, regs2, r, size, n, t, fuel) && !r.Norm? && !r.Exc?
    ensures Simulates(p, s, k + 1, s2, regs2, r, size', n, t, fuel)
  {
    hide Step, Deliver;
    OneStep(p, s);
    StepsAdd(p, s, 1, k);
  }

  lemma EvalTry(p: Program, x: Ctx, e: Node, locals: Locals, w: World, fuel: nat)
    requires e.Try?
    ensures var r := Eval(p, x, e.body, locals, w, fuel);
      Eval(p, x, e, locals, w, fuel) == if r.Exc? then EvalHandler(p, x, e, r.e, r.locals, r.w, fuel) else r
  {}

  lemma {:induction false} SimTry(p: Program, s: State, x: Ctx, e: Node, t: int, b: Buf, locals: Locals, fuel: nat)
    returns (k: nat, s': State, regs': Regs)
    requires e.Try? && Before(p, s, x, e, t, b, locals)
    ensures Does(p, s, x, e, t, locals, fuel, k, s', regs')
    decreases fuel, 1, e, 2
  {
    hide Good, Step, Steps, Deliver, Simulates, Keeps, Advanced, Emit, Eval, EvalHandler, Size, Sound, HoldsLocals,
         Extends, Push, TryBody, HandlerSize, CodeOf;
    var blk := x.m.code.kind == Block;
    var size := Size(p.lay, e.body);
    var h := |b.code| + size + 6;
    var b1 := Push(b, [REGE, t, h]);
    var b2 := Emit(p.lay, blk, e.body, t, b1);
    TryParts(p.lay, blk, e, t, b, |locals|, Code(p, s.top));
    EvalTry(p, x, e, locals, s.w, fuel);
    var s1 := RegeStep(p, s, x, locals, t, h, b);
    OneStep(p, s);
    GoodLater(p, s, 1);
    PushLength(b, [REGE, t, h]);
    k, s', regs' := Sim(p, s1, x, e.body, t, b1, locals, fuel);
    var r := Eval(p, x, e.body, locals, s.w, fuel);
    var jump := HandlerSize(p.lay, e);
    if r.Norm? {
      var s2 := s';
      Settled(p, s1, x, locals, k, s2, regs', r, size, t, fuel);
      OneMore(p, s, s1, k);
      var s4 := Unprotected(p, s, k + 1, s1, s2, Handler(t, h), size, t, r.locals, jump, b2);
      Reached(p, s, k + 3, s4, s4.regs, r, Size(p.lay, e), |locals|, t, fuel);
      k, s', regs' := k + 3, s4, s4.regs;
    } else if r.Exc? {
      var s2 := s';
      ExcLocals(p, s1, k, s2, regs', r, size, |locals|, t, fuel);
      Caught(p, s, s1, k, s2, regs', Handler(t, h), r.e, r.locals, r.w, size, t, fuel);
      Arrived(p, s, x, locals, size + 6, t, r.locals, r.w, s2);
      GoodLater(p, s, k + 1);
      var k3, s3, regs3 := SimHandler(p, s2, x, e, r.e, t, TryBody(p.lay, blk, e, t, b), b, r.locals, fuel);
      Then(p, s, k + 1, s2, size + 6, t, r.locals, k3, s3, regs3, EvalHandler(p, x, e, r.e, r.locals, r.w, fuel),
           Size(p.lay, e), |locals|, t, fuel, fuel);
      k, s', regs' := k + 1 + k3, s3, regs3;
    } else {
      Passed(p, s, s1, k, s', regs', r, size, Size(p.lay, e), |locals|, t, fuel);
      k := k + 1;
    }
  }

  lemma PushLength(b: Buf, xs: seq<int>)
    ensures |Push(b, xs).code| == |b.code| + |xs|
  {}

  lemma OneMore(p: Program, s: State, s1: State, k: nat)
    requires Step(p, s) == s1
    ensures Steps(p, s, k + 1) == Steps(p, s1, k)
  {
    hide CodeOf, SendStep, WorldStep, JumpStep, LeaveStep, MoveStep;
    OneStep(p, s);
    StepsAdd(p, s, 1, k);
  }

  lemma ExcLocals(p: Program, s: State, k: nat, s': State, regs': Regs, r: Res, size: int, n: nat, t: int, fuel: int)
    requires Simulates(p, s, k, s', regs', r, size, n, t, fuel) && r.Exc?
    ensures |r.locals| == n
  {}

  /** The handler of try node `e`; register `t` holds the exception. */
  lemma {:induction false} SimHandler(p: Program, s: State, x: Ctx, e: Node, exc: nat, t: int, bh: Buf, b: Buf,
                                      locals: Locals, fuel: nat)
    returns (k: nat, s': State, regs': Regs)
    requires e.Try? && Good(p, s) && In(s, x, locals) && |locals| <= t && Sound(p.lay, e, t, |locals|)
    requires bh == TryBody(p.lay, x.m.code.kind == Block, e, t, b) && s.top.ip == |bh.code|
    requires Extends(Emit(p.lay, x.m.code.kind == Block, e, t, b), Code(p, s.top))
    requires Get(s.regs, s.top.fp + t) == ExcV(exc)
    ensures Simulates(p, s, k, s', regs', EvalHandler(p, x, e, exc, locals, s.w, fuel), HandlerSize(p.lay, e),
                      |locals|, t, fuel)
    decreases fuel, 1, e, 1, 3
  {
    hide Good, Step, Steps, Deliver, Simulates, Keeps, Advanced, HoldsLocals;
    if e.excName.None? || e.excType.None? {
      k, s', regs' := Sim(p, s, x, e.handler, t, bh, locals, fuel);
    } else {
      k, s', regs' := SimTypedHandler(p, s, x, e, exc, t, bh, b, locals, fuel);
    }
  }

  lemma TypedParts(lay: Layout, blk: bool, e: Node, t: int, b: Buf, n: nat, c: Buf)
    requires e.Try? && e.excName.Some? && e.excType.Some?
    requires Extends(Emit(lay, blk, e, t, b), c) && Sound(lay, e, t, n)
    ensures Sound(lay, e.excType.value, t + 1, n) && Sound(lay, e.handler, t, n) && WritableLoc(lay.At(e.id), n, t)
    ensures HandlerSize(lay, e) ==
            Size(lay, e.excType.value) + 11 + SetSize(lay.At(e.id)) + Size(lay, e.handler) + 4
    ensures var l := lay.At(e.id);
      var b0 := TryBody(lay, blk, e, t, b);
      var b1 := Emit(lay, blk, e.excType.value, t + 1, b0);
      var b2 := Push(b1, [MOVR, t + 2, t]);
      var b3 := PushSend(b2, t + 1, "===", t + 1, 1);
      var b4 := Push(b3, [JMPIF, t + 1, SetSize(l) + Size(lay, e.handler) + 2]);
      var b5 := PushSet(b4, l, t);
      var b6 := Emit(lay, blk, e.handler, t, b5);
      Extends(b1, c) && Extends(b2, c) && Extends(b3, c) && Extends(b4, c) && Extends(b5, c) && Extends(b6, c) &&
      Extends(Push(b6, [JMPF, 2, RAISE, t]), c) &&
      |b1.code| == |b0.code| + Size(lay, e.excType.value) && |b3.code| == |b1.code| + 8 &&
      |b5.code| == |b3.code| + 3 + SetSize(l) && |b6.code| == |b5.code| + Size(lay, e.handler)
  {
    hide Emit, EmitArgs, Extends, Size, SizeArgs, Push, PushSend, PushGet, PushSet, HandlerSize, TryBody;
    TypedShape(lay, blk, e, t, b, c);
  }

  lemma Kept(s: State, size: int, n: nat, t: int, l: Locals, w: World, s': State, r: int)
    requires Advanced(s, size, n, t, l, w, s') && n <= r < t
    ensures Get(s'.regs, s'.top.fp + r) == Get(s.regs, s.top.fp + r)
  {}

  /** Whether a typed handler takes the exception. */
  function Test(p: Program, x: Ctx, e: Node, exc: nat, locals: Locals, w: World, fuel: nat): Res
    requires e.Try? && e.excType.Some?
  {
    var r := Eval(p, x, e.excType.value, locals, w, fuel);
    if r.Norm? then EvalCall(p, x, r.v, "===", [ExcV(exc)], r.locals, r.w, fuel) else r
  }

  /** What a typed handler does with an exception it takes. */
  function Bound(p: Program, x: Ctx, e: Node, exc: nat, locals: Locals, w: World, fuel: nat): Res
    requires e.Try?
  {
    var r := Write(x, p.lay.At(e.id), ExcV(exc), locals, w);
    if r.Norm? then Eval(p, x, e.handler, r.locals, r.w, fuel) else r
  }

  lemma EvalTyped(p: Program, x: Ctx, e: Node, exc: nat, locals: Locals, w: World, fuel: nat)
    requires e.Try? && e.excName.Some? && e.excType.Some?
    ensures var r := Test(p, x, e, exc, locals, w, fuel);
      EvalHandler(p, x, e, exc, locals, w, fuel) ==
      if !r.Norm? then r
      else if Truthy(r.v) then Bound(p, x, e, exc, r.locals, r.w, fuel)
      else Exc(exc, r.locals, r.w)
  {
    hide Eval, EvalCall;
  }

  lemma MoveStepOf(p: Program, s: State, to: int, from: int, b: Buf)
    requires s.Running? && s.top.ip == |b.code| && Extends(Push(b, [MOVR, to, from]), Code(p, s.top))
    ensures Step(p, s) == Next(s.callers, s.top, 3, s.regs[s.top.fp + to := Get(s.regs, s.top.fp + from)], s.w)
  {
    hide Deliver, Call, CodeOf;
    Fetch(b, [MOVR, to, from], Code(p, s.top));
  }

  lemma {:induction false} SimTest(p: Program, s: State, x: Ctx, e: Node, exc: nat, t: int, b0: Buf, locals: Locals,
                                   fuel: nat)
    returns (k: nat, s': State, regs': Regs)
    requires e.Try? && e.excType.Some? && Before(p, s, x, e.excType.value, t + 1, b0, locals) && |locals| <= t
    requires var b2 := Push(Emit(p.lay, x.m.code.kind == Block, e.excType.value, t + 1, b0), [MOVR, t + 2, t]);
      Extends(b2, Code(p, s.top)) && Extends(PushSend(b2, t + 1, "===", t + 1, 1), Code(p, s.top))
    requires Get(s.regs, s.top.fp + t) == ExcV(exc)
    ensures Simulates(p, s, k, s', regs', Test(p, x, e, exc, locals, s.w, fuel), Size(p.lay, e.excType.value) + 8,
                      |locals|, t + 1, fuel)
    decreases fuel, 1, e, 1, 1
  {
    hide Good, Step, Steps, Deliver, Simulates, Keeps, Advanced, HoldsLocals, Emit, Eval, EvalCall, Size, Sound,
         Extends, Push, PushSend, CodeOf;
    var ty := e.excType.value;
    var size := Size(p.lay, ty);
    var b1 := Emit(p.lay, x.m.code.kind == Block, ty, t + 1, b0);
    var b2 := Push(b1, [MOVR, t + 2, t]);
    EmitGrows(p.lay, x.m.code.kind == Block, ty, t + 1, b0);
    PushLength(b1, [MOVR, t + 2, t]);
    PushExtends(b1, [MOVR, t + 2, t], Code(p, s.top));
    k, s', regs' := Sim(p, s, x, ty, t + 1, b0, locals, fuel);
    var r := Eval(p, x, ty, locals, s.w, fuel);
    if r.Norm? {
      var s1 := s';
      Settled(p, s, x, locals, k, s1, regs', r, size, t + 1, fuel);
      Kept(s, size, |locals|, t + 1, r.locals, r.w, s1, t);
      MoveStepOf(p, s1, t + 2, t, b1);
      var s2 := Loaded(p, s1, x, r.locals, t + 2, 3, ExcV(exc));
      StepAfter(p, s, k);
      GoodLater(p, s, k + 1);
      Kept(s1, 3, |locals|, t + 2, r.locals, r.w, s2, t + 1);
      assert HoldsArgs([ExcV(exc)], s2.regs, s2.top.fp + (t + 1) + 1);
      var k3, s3, regs3 := SimCall(p, s2, x, r.v, "===", [ExcV(exc)], t + 1, b2, r.locals, fuel);
      Chained(s, size, |locals|, t + 1, r.locals, s1, 3, t + 2, s2);
      Then(p, s, k + 1, s2, size + 3, t + 1, r.locals, k3, s3, regs3,
           EvalCall(p, x, r.v, "===", [ExcV(exc)], r.locals, r.w, fuel), size + 8, |locals|, t + 1, fuel, fuel);
      k, s', regs' := k + 1 + k3, s3, regs3;
    } else {
      Narrower(p, s, k, s', regs', r, size, |locals|, t + 1, fuel, size + 8, t + 1);
    }
  }

  lemma PushExtends(b: Buf, xs: seq<int>, c: Buf)
    requires Extends(Push(b, xs), c)
    ensures Extends(b, c)
  {}

  lemma Chained(s: State, size: int, n: nat, t: int, l: Locals, s1: State, size1: int, t1: int, s2: State)
    requires s1.Running? && Advanced(s, size, n, t, l, s1.w, s1) && Advanced(s1, size1, n, t1, l, s1.w, s2)
    requires n <= t <= t1
    ensures Advanced(s, size + size1, n, t, l, s1.w, s2)
  {}

  lemma {:induction false} SimBound(p: Program, s: State, x: Ctx, e: Node, exc: nat, t: int, b4: Buf, locals: Locals,
                                    fuel: nat)
    returns (k: nat, s': State, regs': Regs)
    requires e.Try? && Good(p, s) && In(s, x, locals) && |locals| <= t && s.top.ip == |b4.code|
    requires Sound(p.lay, e.handler, t, |locals|) && WritableLoc(p.lay.At(e.id), |locals|, t)
    requires var b5 := PushSet(b4, p.lay.At(e.id), t);
      var b6 := Emit(p.lay, x.m.code.kind == Block, e.handler, t, b5);
      Extends(b5, Code(p, s.top)) && Extends(b6, Code(p, s.top)) &&
      Extends(Push(b6, [JMPF, 2]), Code(p, s.top)) && |b5.code| == |b4.code| + SetSize(p.lay.At(e.id))
    requires Get(s.regs, s.top.fp + t) == ExcV(exc)
    ensures Simulates(p, s, k, s', regs', Bound(p, x, e, exc, locals, s.w, fuel),
                      SetSize(p.lay.At(e.id)) + Size(p.lay, e.handler) + 4, |locals|, t, fuel)
    decreases fuel, 1, e, 1, 1
  {
    hide Good, Step, Steps, Deliver, Simulates, Keeps, Advanced, HoldsLocals, Emit, Eval, Size, Sound, Extends, Push,
         PushSet, Write, WritableLoc, SetSize, CodeOf;
    var l := p.lay.At(e.id);
    var size := SetSize(l) + Size(p.lay, e.handler) + 4;
    var r := Write(x, l, ExcV(exc), locals, s.w);
    SimSet(p, s, x, l, t, b4, locals, fuel);
    k, s', regs' := 1, Step(p, s), s.regs;
    if r.Norm? {
      var s1 := s';
      Settled(p, s, x, locals, k, s1, regs', r, SetSize(l), t, fuel);
      GoodLater(p, s, k);
      var k2, s2, regs2 := SimThenJump(p, s1, x, e, e.handler, t, PushSet(b4, l, t), r.locals, 2, fuel);
      Then(p, s, k, s1, SetSize(l), t, r.locals, k2, s2, regs2, Eval(p, x, e.handler, r.locals, r.w, fuel), size,
           |locals|, t, fuel, fuel);
      k, s', regs' := k + k2, s2, regs2;
    } else {
      Narrower(p, s, k, s', regs', r, SetSize(l), |locals|, t, fuel, size, t);
    }
  }

  lemma {:induction false} SimTypedHandler(p: Program, s: State, x: Ctx, e: Node, exc: nat, t: int, bh: Buf, b: Buf,
                                           locals: Locals, fuel: nat)
    returns (k: nat, s': State, regs': Regs)
    requires e.Try? && e.excName.Some? && e.excType.Some?
    requires Good(p, s) && In(s, x, locals) && |locals| <= t && Sound(p.lay, e, t, |locals|)
    requires bh == TryBody(p.lay, x.m.code.kind == Block, e, t, b) && s.top.ip == |bh.code|
    requires Extends(Emit(p.lay, x.m.code.kind == Block, e, t, b), Code(p, s.top))
    requires Get(s.regs, s.top.fp + t) == ExcV(exc)
    ensures Simulates(p, s, k, s', regs', EvalHandler(p, x, e, exc, locals, s.w, fuel), HandlerSize(p.lay, e),
                      |locals|, t, fuel)
    decreases fuel, 1, e, 1, 2
  {
    hide Good, Step, Steps, Deliver, Simulates, Keeps, Advanced, HoldsLocals, Emit, Eval, EvalHandler, Size, Sound,
         Extends, Push, PushSend, PushSet, Test, Bound, WritableLoc, SetSize, TryBody, HandlerSize, CodeOf;
    var blk, l, ty := x.m.code.kind == Block, p.lay.At(e.id), e.excType.value;
    TypedParts(p.lay, blk, e, t, b, |locals|, Code(p, s.top));
    EvalTyped(p, x, e, exc, locals, s.w, fuel);
    var size, all := Size(p.lay, ty) + 8, HandlerSize(p.lay, e);
    var jump := SetSize(l) + Size(p.lay, e.handler) + 2;
    var b3 := PushSend(Push(Emit(p.lay, blk, ty, t + 1, bh), [MOVR, t + 2, t]), t + 1, "===", t + 1, 1);
    var b4 := Push(b3, [JMPIF, t + 1, jump]);
    var b6 := Emit(p.lay, blk, e.handler, t, PushSet(b4, l, t));
    PushLength(b3, [JMPIF, t + 1, jump]);
    k, s', regs' := SimTest(p, s, x, e, exc, t, bh, locals, fuel);
    var r := Test(p, x, e, exc, locals, s.w, fuel);
    if r.Norm? {
      var s1 := s';
      Settled(p, s, x, locals, k, s1, regs', r, size, t + 1, fuel);
      var s2 := Branch(p, s, x, locals, k, s1, size, t + 1, r.locals, JMPIF, jump, b3);
      GoodLater(p, s, k + 1);
      Kept(s, s2.top.ip - s.top.ip, |locals|, t + 1, r.locals, r.w, s2, t);
      Lower(s, s2.top.ip - s.top.ip, |locals|, t + 1, r.locals, r.w, s2, t);
      JumpThenRaise(b6, t, Code(p, s.top));
      if Truthy(r.v) {
        var k3, s3, regs3 := SimBound(p, s2, x, e, exc, t, b4, r.locals, fuel);
        Then(p, s, k + 1, s2, size + 3, t, r.locals, k3, s3, regs3, Bound(p, x, e, exc, r.locals, r.w, fuel), all,
             |locals|, t, fuel, fuel);
        k, s', regs' := k + 1 + k3, s3, regs3;
      } else {
        k, s', regs' := RaiseStep(p, s, k + 1, s2, size + 3 + jump, t, ExcV(exc), r.locals, all, fuel);
      }
    } else {
      Narrower(p, s, k, s', regs', r, size, |locals|, t + 1, fuel, all, t);
    }
  }

  lemma JumpThenRaise(b: Buf, t: int, c: Buf)
    requires Extends(Push(b, [JMPF, 2, RAISE, t]), c)
    ensures Extends(Push(b, [JMPF, 2]), c)
    ensures At(c.code, |b.code| + 2) == RAISE && At(c.code, |b.code| + 3) == t
  {
    assert Push(Push(b, [JMPF, 2]), [RAISE, t]) == Push(b, [JMPF, 2, RAISE, t]);
    Fetch(b, [JMPF, 2, RAISE, t], c);
  }

  /** The simulation theorem: emitted code does what the evaluator says. */
  lemma {:induction false} Sim(p: Program, s: State, x: Ctx, e: Node, t: int, b: Buf, locals: Locals, fuel: nat)
    returns (k: nat, s': State, regs': Regs)
    requires Before(p, s, x, e, t, b, locals)
    ensures Does(p, s, x, e, t, locals, fuel, k, s', regs')
    decreases fuel, 1, e, 3
  {
    hide Good, Step, Steps, Deliver, Simulates, Keeps, Advanced, HoldsLocals, Emit, Eval;
    k, s', regs' := 1, Step(p, s), s.regs;
    match e
    case Seq(_, _) => k, s', regs' := SimSeq(p, s, x, e, t, b, locals, fuel);
    case Number(_) => SimNumber(p, s, x, e, t, b, locals, fuel);
    case Nil => SimConstant(p, s, x, e, t, b, locals, fuel);
    case True => SimConstant(p, s, x, e, t, b, locals, fuel);
    case False => SimConstant(p, s, x, e, t, b, locals, fuel);
    case LiteralString(_) => SimPooled(p, s, x, e, t, b, locals, fuel);
    case Lambda(_) => SimPooled(p, s, x, e, t, b, locals, fuel);
    case Self(_) => SimVariable(p, s, x, e, t, b, locals, fuel);
    case Named(id, _) =>
      if p.lay.At(id).None? {
        k, s', regs' := SimNamedCall(p, s, x, e, t, b, locals, fuel);
      } else {
        SimVariable(p, s, x, e, t, b, locals, fuel);
      }
    case Assign(_, _, _) => k, s', regs' := SimAssign(p, s, x, e, t, b, locals, fuel);
    case AssignOp(_, _, _, _) => k, s', regs' := SimAssignOp(p, s, x, e, t, b, locals, fuel);
    case Not(_) => k, s', regs' := SimNot(p, s, x, e, t, b, locals, fuel);
    case And(_, _) => k, s', regs' := SimAnd(p, s, x, e, t, b, locals, fuel);
    case IfCond(_, _, y) =>
      if y.Some? {
        k, s', regs' := SimIfElse(p, s, x, e, t, b, locals, fuel);
      } else {
        k, s', regs' := SimIf(p, s, x, e, t, b, locals, fuel);
      }
    case Unless(_, _) => k, s', regs' := SimUnless(p, s, x, e, t, b, locals, fuel);
    case While(_, _) => k, s', regs' := SimWhile(p, s, x, e, t, b, locals, fuel);
    case Tuple(_) => k, s', regs' := SimGather(p, s, x, e, t, b, locals, fuel);
    case List(_) => k, s', regs' := SimGather(p, s, x, e, t, b, locals, fuel);
    case Send(_, _, _, _, _) => k, s', regs' := SimSend(p, s, x, e, t, b, locals, fuel);
    case Raise(_) => k, s', regs' := SimRaise(p, s, x, e, t, b, locals, fuel);
    case Try(_, _, _, _, _) => k, s', regs' := SimTry(p, s, x, e, t, b, locals, fuel);
    case Return(_) => k, s', regs' := SimReturn(p, s, x, e, t, b, locals, fuel);
    case Def(_, _) => k, s', regs' := SimDef(p, s, x, e, t, b, locals, fuel);
  }

  lemma SimVariable(p: Program, s: State, x: Ctx, e: Node, t: int, b: Buf, locals: Locals, fuel: nat)
    requires (e.Named? || e.Self?) && p.lay.At(e.id).Some? && Before(p, s, x, e, t, b, locals)
    ensures DoesAtOnce(p, s, x, e, t, locals, fuel)
  {
    hide Good, Step, Steps, Deliver, Simulates;
    SimGet(p, s, x, p.lay.At(e.id), t, b, locals, fuel);
  }

  // ----- activations -----

  /** The position of an argument as `SVAR` reads it. */
  lemma ArgumentStep(p: Program, s: State, x: Ctx, a: Argument, position: int, b: Buf, v: Option<Value>)
    requires In(s, x, []) && s.top.ip == |b.code| && -1 <= position < 128
    requires v.Some? ==> Get(s.regs, s.top.fp + position) == v.value
    requires Extends(EmitArgument(p.lay, a, position, b), Code(p, s.top))
    ensures var r := StoreArgument(p, x, a, v, s.w);
      var b' := EmitArgument(p.lay, a, position, b);
      var s' := if b' == b then s else Step(p, s);
      match r
      case Norm(_, _, w') => s' == Running(s.callers, s.top.(ip := |b'.code|), s.regs, w')
      case Abort => s'.Crashed?
      case Junk => true
      case _ => false
  {
    hide Deliver, Call, MoveStep, JumpStep, LeaveStep, CodeOf;
    match p.lay.At(a.id)
    case Some(Clo(d, i)) =>
      Fetch(b, SetCode(Clo(d, i), position), Code(p, s.top));
      assert SignedByte(Byte(position)) == position;
      assert EmitArgument(p.lay, a, position, b).code != b.code;
    case _ =>
      assert s.top.(ip := |b.code|) == s.top;
  }

  /** What running a prolog must establish. */
  ghost predicate Prologues(p: Program, s: State, k: nat, s': State, ip: int, r: Res) {
    Steps(p, s, k) == s' && s.Running? &&
    match r
    case Norm(_, _, w') => s' == Running(s.callers, s.top.(ip := ip), s.regs, w')
    case Abort => s'.Crashed?
    case Junk => true
    case _ => false
  }

  lemma {:induction false} SimArgument(p: Program, s: State, x: Ctx, a: Argument, position: int, b: Buf,
                                       v: Option<Value>)
    returns (k: nat, s': State)
    requires In(s, x, []) && s.top.ip == |b.code| && -1 <= position < 128
    requires v.Some? ==> Get(s.regs, s.top.fp + position) == v.value
    requires Extends(EmitArgument(p.lay, a, position, b), Code(p, s.top))
    ensures Prologues(p, s, k, s', |EmitArgument(p.lay, a, position, b).code|, StoreArgument(p, x, a, v, s.w))
  {
    hide Step, EmitArgument, StoreArgument, Extends, CodeOf;
    ArgumentStep(p, s, x, a, position, b, v);
    OneStep(p, s);
    if EmitArgument(p.lay, a, position, b) == b { k, s' := 0, s; } else { k, s' := 1, Step(p, s); }
  }

  lemma {:induction false} ArgumentsExtend(lay: Layout, args: seq<Argument>, i: nat, b: Buf)
    requires i <= |args|
    ensures Extends(b, EmitArguments(lay, args, i, b))
    decreases |args| - i
  {
    if i < |args| {
      ArgumentsExtend(lay, args, i + 1, EmitArgument(lay, args[i], i, b));
      ArgumentExtends(lay, args[i], i, b);
    }
  }

  lemma ArgumentExtends(lay: Layout, a: Argument, position: int, b: Buf)
    ensures Extends(b, EmitArgument(lay, a, position, b))
  {}

  lemma {:induction false} SimArguments(p: Program, s: State, x: Ctx, params: seq<Argument>, i: nat, b: Buf,
                                        args: seq<Value>)
    returns (k: nat, s': State)
    requires In(s, x, []) && s.top.ip == |b.code| && i <= |params| <= 128 && HoldsArgs(args, s.regs, s.top.fp)
    requires Extends(EmitArguments(p.lay, params, i, b), Code(p, s.top))
    ensures Prologues(p, s, k, s', |EmitArguments(p.lay, params, i, b).code|,
                      StoreArguments(p, x, params, i, args, s.w))
    decreases |params| - i
  {
    hide Step, EmitArgument, StoreArgument, Extends, CodeOf;
    if i == |params| {
      k, s' := 0, s;
      assert s.top.(ip := |b.code|) == s.top;
    } else {
      var b1 := EmitArgument(p.lay, params[i], i, b);
      ArgumentsExtend(p.lay, params, i + 1, b1);
      Extended(b1, EmitArguments(p.lay, params, i + 1, b1), Code(p, s.top));
      var v := if i < |args| then Some(args[i]) else None;
      k, s' := SimArgument(p, s, x, params[i], i, b, v);
      var r := StoreArgument(p, x, params[i], v, s.w);
      if r.Norm? {
        var k2, s2 := SimArguments(p, s', x, params, i + 1, b1, args);
        StepsAdd(p, s, k, k2);
        k, s' := k + k2, s2;
      }
    }
  }

  lemma {:induction false} SimProlog(p: Program, s: State, x: Ctx, args: seq<Value>)
    returns (k: nat, s': State)
    requires In(s, x, []) && s.top.ip == 0 && |x.m.code.scope.args| <= 128 && HoldsArgs(args, s.regs, s.top.fp)
    requires Extends(EmitProlog(p.lay, x.m.code.scope, Empty), Code(p, s.top))
    ensures Prologues(p, s, k, s', |EmitProlog(p.lay, x.m.code.scope, Empty).code|, Prolog(p, x, args, s.w))
  {
    hide Step, EmitArgument, StoreArgument, Extends, EmitArguments, StoreArguments, CodeOf;
    var sc := x.m.code.scope;
    if sc.self.Some? {
      var b1 := EmitArgument(p.lay, sc.self.value, -1, Empty);
      ArgumentsExtend(p.lay, sc.args, 0, b1);
      Extended(b1, EmitArguments(p.lay, sc.args, 0, b1), Code(p, s.top));
      k, s' := SimArgument(p, s, x, sc.self.value, -1, Empty, Some(x.self));
      var r := StoreArgument(p, x, sc.self.value, Some(x.self), s.w);
      if r.Norm? {
        var k2, s2 := SimArguments(p, s', x, sc.args, 0, b1, args);
        StepsAdd(p, s, k, k2);
        k, s' := k + k2, s2;
      }
    } else {
      k, s' := SimArguments(p, s, x, sc.args, 0, Empty, args);
    }
  }

  /** Where the body of a code object starts and ends. */
  lemma CodeParts(lay: Layout, c: Template)
    requires SoundCode(lay, c)
    ensures var b := EmitProlog(lay, c.scope, Empty);
      var t := TempBase(lay, c.scope, c.kind);
      var b1 := Emit(lay, c.kind == Block, c.scope.body, t, b);
      Extends(b, CodeOf(lay, c)) && Extends(b1, CodeOf(lay, c)) && |b1.code| == |b.code| + Size(lay, c.scope.body) &&
      (c.kind != Top ==> CodeOf(lay, c) == Push(b1, [RET, t])) && (c.kind == Top ==> CodeOf(lay, c) == b1)
  {
    hide Emit;
    FitsIsExact(lay, c);
    var b := EmitProlog(lay, c.scope, Empty);
    EmitGrows(lay, c.kind == Block, c.scope.body, TempBase(lay, c.scope, c.kind), b);
  }

  /** The step at the end of a code object, whose value is in register `t`. */
  lemma FinalStep(p: Program, s: State, t: int, b: Buf)
    requires s.Running? && s.top.ip == |b.code|
    requires Code(p, s.top) == if s.top.m.code.kind == Top then b else Push(b, [RET, t])
    ensures Step(p, s) ==
      Deliver(p, s.callers, Ret(if s.top.m.code.kind == Top then NilV else Get(s.regs, s.top.fp + t)), s.regs, s.w)
  {
    hide Deliver, Call, MoveStep, JumpStep, WorldStep, CodeOf;
    if s.top.m.code.kind != Top { Fetch(b, [RET, t], Code(p, s.top)); }
  }

  /** An activation whose body came out as `r`, reached after `k1` steps of prolog. */
  lemma Exits(p: Program, s0: State, k1: nat, s: State, x: Ctx, locals: Locals, t: int, b: Buf, size: int, k2: nat,
              s2: State, regs2: Regs, r: Res, fuel: int)
    returns (k: nat, s': State, regs': Regs)
    requires s0.Running? && Steps(p, s0, k1) == s && In(s, x, locals) && s.top.es == [] && |locals| <= t
    requires s.callers == s0.callers && s.top.fp == s0.top.fp && s.regs == s0.regs
    requires Code(p, s.top) == if x.m.code.kind == Top then b else Push(b, [RET, t])
    requires s.top.ip + size == |b.code| && Simulates(p, s, k2, s2, regs2, r, size, |locals|, t, fuel)
    ensures Completes(p, s0, k, s', regs', Exit(x.m.code.kind, r), fuel)
  {
    hide Good, Step, Steps, Deliver, CodeOf;
    StepsAdd(p, s0, k1, k2);
    k, s', regs' := k1 + k2, s2, regs2;
    match r
    case Norm(v, l, w) =>
      FinalStep(p, s2, t, b);
      StepAfter(p, s0, k);
      k, s', regs' := k + 1, Step(p, s2), s2.regs;
    case Exc(e, l, w) => ThrownOut(p, s.callers, s.top, e, regs2, w);
    case _ =>
  }

  lemma ThrownOut(p: Program, callers: seq<Frame>, f: Frame, e: nat, regs: Regs, w: World)
    requires f.es == []
    ensures Throw(p, callers, f, e, regs, w) == Deliver(p, callers, Unwind(e), regs, w)
  {
    hide CodeOf;
    assert (callers + [f.(ip := 0)])[..|callers|] == callers;
  }

  lemma {:induction false} SimActivate(p: Program, s: State, m: MethodRef, self: Value, args: seq<Value>, w: World,
                                       fuel: nat)
    returns (k: nat, s': State, regs': Regs)
    requires Good(p, s) && SoundCode(p.lay, m.code)
    requires s.Running? && s.top == Activation(m, s.top.fp, w) && s.w == WithClosure(p, m, w)
    requires Get(s.regs, s.top.fp - 1) == self && HoldsArgs(args, s.regs, s.top.fp)
    ensures Completes(p, s, k, s', regs', Activate(p, m, self, args, w, fuel), fuel)
    decreases fuel, 2
  {
    hide Good, Step, Steps, Deliver, Emit, Eval, EmitProlog, Prolog, Size, Sound, CodeOf, RawCode, FitsBytes, Simulates,
      WithClosure, Extends;
    var x := Ctx(self, |w.closures|, m);
    var n := TempBase(p.lay, m.code.scope, m.code.kind);
    var b := EmitProlog(p.lay, m.code.scope, Empty);
    var b1 := Emit(p.lay, m.code.kind == Block, m.code.scope.body, n, b);
    CodeParts(p.lay, m.code);
    k, s' := SimProlog(p, s, x, args);
    regs' := s.regs;
    var r := Prolog(p, x, args, s.w);
    if r.Norm? {
      var s1 := s';
      var locals := InitialLocals(n, args);
      GoodLater(p, s, k);
      assert HoldsLocals(locals, s1.regs, s1.top.fp);
      var k2, s2, regs2 := Sim(p, s1, x, m.code.scope.body, n, b, locals, fuel);
      k, s', regs' := Exits(p, s, k, s1, x, locals, n, b1, Size(p.lay, m.code.scope.body), k2, s2, regs2,
                            Eval(p, x, m.code.scope.body, locals, r.w, fuel), fuel);
    }
  }
}
