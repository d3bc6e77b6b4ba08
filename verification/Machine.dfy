/**
 The bytecode machine: one step executes one instruction of the running activation. Activations
 use overlapping windows of one register stack; a call that leaves its activation is delivered to
 the callers as `check_unwind` does.
 */
module Machine {
  import opened Ast
  import opened Emission

  /** A method object: compiled code together with the closure it was created in. */
  datatype MethodRef = MethodRef(code: Template, closure: nat)

  datatype Value =
    | NilV
    | TrueV
    | FalseV
    | IntV(i: int)
    | StrV(s: string)
    | ExcV(exc: nat)
    | MethodV(m: MethodRef)
    | ObjV(obj: nat)

  predicate Truthy(v: Value) { !v.FalseV? && !v.NilV? }

  /** `owner` is not read by the machine: it records whose activation the closure belongs to. */
  datatype Closure = Closure(parent: Option<nat>, values: seq<Value>, returnTo: bool, owner: Template)

  /** Everything outside the register stack: the closures, and an image of all other heap objects. */
  datatype World = World(closures: seq<Closure>, heap: seq<int>)

  /** What a finished call hands to its caller: a value, a raised exception, or a non-local return. */
  datatype Outcome = Ret(v: Value) | Unwind(exc: nat) | LongRet(v: Value, target: nat)

  datatype Dispatch = NotFound | Native | Bytecode(m: MethodRef, checked: bool)

  /**
   A native call: its outcome, the world it leaves, and what it leaves in the registers from its
   receiver upwards.
   */
  datatype NativeResult = NativeResult(o: Outcome, w: World, scratch: seq<Value>)

  /**
   The parts of the runtime that are not modelled: method lookup, native methods, allocation. `sane`
   holds of the worlds whose other heap objects hold only values that exist in that world.
   */
  datatype Env = Env(
    sane: World -> bool,
    find: (World, Value, string) -> Dispatch,
    native: (World, Value, string, seq<Value>) -> NativeResult,
    missing: (World, string) -> (nat, World),
    badArity: (World, nat, nat) -> (nat, World),
    newException: (World, string) -> (nat, World),
    makeTuple: (World, seq<Value>) -> (Value, World),
    makeList: (World, seq<Value>) -> (Value, World))

  /**
   A compiled program: its runtime, the layout all its code objects were emitted with, its files, and how many
   globals there are.
   */
  datatype Program = Program(env: Env, lay: Layout, files: set<Scope>, globals: nat)

  datatype Handler = Handler(reg: int, ip: int)

  /** One activation of `VM::run`: register `r` of the activation is stack cell `fp + r`. */
  datatype Frame = Frame(m: MethodRef, fp: int, clos: nat, ip: int, es: seq<Handler>)

  type Regs = map<int, Value>

  datatype State =
    | Running(callers: seq<Frame>, top: Frame, regs: Regs, w: World)
    | Done(o: Outcome, w: World)
    | Crashed

  function Get(regs: Regs, i: int): Value { if i in regs then regs[i] else NilV }

  function Window(regs: Regs, start: int, n: nat): (vs: seq<Value>)
    ensures |vs| == n && forall k :: 0 <= k < n ==> vs[k] == Get(regs, start + k)
  {
    seq(n, k requires 0 <= k < n => Get(regs, start + k))
  }

  /** Overwrites the cells from `start` upwards. */
  function Scribble(regs: Regs, start: int, vs: seq<Value>): (r: Regs)
    ensures forall i :: Get(r, i) == if start <= i < start + |vs| then vs[i - start] else Get(regs, i)
    decreases |vs|
  {
    if vs == [] then regs else Scribble(regs[start := vs[0]], start + 1, vs[1..])
  }

  function Code(p: Program, f: Frame): Buf { CodeOf(p.lay, f.m.code) }

  function At(xs: seq<int>, i: int): int { if 0 <= i < |xs| then xs[i] else 0 }

  // ----- closures -----

  datatype Slot = Holds(v: Value) | BadSlot

  /** `Closure::get_at_depth`: nil past the end of the chain, a failed check on a bad index. */
  function GetAtDepth(w: World, c: nat, depth: int, idx: int): Slot
    decreases depth
  {
    if c >= |w.closures| then BadSlot
    else if depth <= 0 then
      if 0 <= idx < |w.closures[c].values| then Holds(w.closures[c].values[idx]) else BadSlot
    else
      match w.closures[c].parent
      case None => Holds(NilV)
      case Some(q) => GetAtDepth(w, q, depth - 1, idx)
  }

  /** `Closure::set_at_depth`: no effect past the end of the chain. */
  function SetAtDepth(w: World, c: nat, depth: int, idx: int, v: Value): Option<World>
    decreases depth
  {
    if c >= |w.closures| then None
    else if depth <= 0 then
      if 0 <= idx < |w.closures[c].values| then
        Some(w.(closures := w.closures[c := w.closures[c].(values := w.closures[c].values[idx := v])]))
      else None
    else
      match w.closures[c].parent
      case None => Some(w)
      case Some(q) => SetAtDepth(w, q, depth - 1, idx, v)
  }

  /** `Method::return_to`: the nearest closure on the chain that a `return` may end. */
  function ReturnTo(w: World, c: nat, fuel: nat): Option<nat>
    decreases fuel
  {
    if c >= |w.closures| then None
    else if w.closures[c].returnTo then Some(c)
    else if fuel == 0 then None
    else
      match w.closures[c].parent
      case None => None
      case Some(q) => ReturnTo(w, q, fuel - 1)
  }

  /** A chain visits each closure at most once, so its length is bounded by their number. */
  function Target(w: World, c: nat): Option<nat> { ReturnTo(w, c, |w.closures|) }

  // ----- calls and unwinding -----

  /** What `run` does in a caller whose `SEND` came back with `o`, and in its callers in turn. */
  function Deliver(p: Program, frames: seq<Frame>, o: Outcome, regs: Regs, w: World): State
    decreases |frames|
  {
    if frames == [] then Done(o, w)
    else
      var f := frames[|frames| - 1];
      var callers := frames[..|frames| - 1];
      match o
      case Ret(v) =>
        Running(callers, f.(ip := f.ip + 5), regs[f.fp + At(Code(p, f).code, f.ip + 1) := v], w)
      case Unwind(e) =>
        if f.es == [] then Deliver(p, callers, o, regs, w)
        else
          var h := f.es[|f.es| - 1];
          Running(callers, f.(ip := h.ip, es := f.es[..|f.es| - 1]), regs[f.fp + h.reg := ExcV(e)], w)
      case LongRet(v, target) =>
        Deliver(p, callers, if target == f.clos then Ret(v) else o, regs, w)
  }

  /** The activation that running `m` starts, with its receiver in the cell below `fp`. */
  function Activation(m: MethodRef, fp: int, w: World): Frame { Frame(m, fp, |w.closures|, 0, []) }

  function WithClosure(p: Program, m: MethodRef, w: World): World {
    w.(closures := w.closures +
       [Closure(Some(m.closure), seq(p.lay.Cov(m.code.scope), _ => NilV), m.code.kind == Method, m.code)])
  }

  /** The machine about to run `m` in the window at `fp`; its receiver is in the cell below. */
  function Start(p: Program, m: MethodRef, regs: Regs, fp: int, w: World): State {
    Running([], Activation(m, fp, w), regs, WithClosure(p, m, w))
  }

  /** Only a method body demands a number of arguments. */
  function Arity(m: MethodRef): nat { if m.code.kind == Method then |m.code.scope.args| else 0 }

  /** `SEND`: the receiver is in register `recv`, the arguments follow it. */
  function Call(p: Program, callers: seq<Frame>, f: Frame, name: string, recv: int, argc: int, regs: Regs, w: World)
    : State
    requires 0 <= argc
  {
    var v := Get(regs, f.fp + recv);
    match p.env.find(w, v, name)
    case NotFound =>
      var (e, w') := p.env.missing(w, name);
      Deliver(p, callers + [f], Unwind(e), regs, w')
    case Native =>
      var r := p.env.native(w, v, name, Window(regs, f.fp + recv + 1, argc));
      Deliver(p, callers + [f], r.o, Scribble(regs, f.fp + recv, r.scratch), r.w)
    case Bytecode(m, checked) =>
      if checked && Arity(m) > 0 && argc != Arity(m) then
        var (e, w') := p.env.badArity(w, Arity(m), argc);
        Deliver(p, callers + [f], Unwind(e), regs, w')
      else
        Running(callers + [f], Activation(m, f.fp + recv + 1, w), regs, WithClosure(p, m, w))
  }

  /** `Exception::wrap`: an exception is itself, a string is wrapped, anything else fails a check. */
  function Wrap(env: Env, v: Value, w: World): Option<(nat, World)> {
    match v
    case ExcV(e) => Some((e, w))
    case StrV(s) => Some(env.newException(w, s))
    case _ => None
  }

  function WordValue(b0: int, b1: int, b2: int, b3: int): int {
    var u := b0 + 256 * b1 + 65536 * b2 + 16777216 * b3;
    if u >= 0x8000_0000 then u - 0x1_0000_0000 else u
  }

  /** `(int)(char)`: a byte read as a signed number. */
  function SignedByte(b: int): int { if b >= 128 then b - 256 else b }

  /** The running activation moves `n` bytes on, with new registers and a new world. */
  function Next(callers: seq<Frame>, f: Frame, n: int, regs: Regs, w: World): State {
    Running(callers, f.(ip := f.ip + n), regs, w)
  }

  function SendStep(p: Program, callers: seq<Frame>, f: Frame, regs: Regs, w: World): State {
    var c, q := Code(p, f), f.ip;
    var name, recv, argc := At(c.code, q + 2), At(c.code, q + 3), At(c.code, q + 4);
    if 0 <= name < |c.strs| && 0 <= argc then Call(p, callers, f, c.strs[name], recv, argc, regs, w) else Crashed
  }

  /** The instructions that only write a register. */
  function MoveStep(p: Program, op: int, callers: seq<Frame>, f: Frame, regs: Regs, w: World): State {
    var c, q := Code(p, f), f.ip;
    var a, b := At(c.code, q + 1), At(c.code, q + 2);
    var r := f.fp + a;
    if op == MOVI8 then Next(callers, f, 3, regs[r := IntV(b)], w)
    else if op == MOVI32 then
      Next(callers, f, 6,
           regs[r := IntV(WordValue(b, At(c.code, q + 3), At(c.code, q + 4), At(c.code, q + 5)))], w)
    else if op == MOVR then Next(callers, f, 3, regs[r := Get(regs, f.fp + b)], w)
    else if op == MOVN then Next(callers, f, 2, regs[r := NilV], w)
    else if op == MOVT then Next(callers, f, 2, regs[r := TrueV], w)
    else if op == MOVF then Next(callers, f, 2, regs[r := FalseV], w)
    else if op == SELF then Next(callers, f, 2, regs[r := Get(regs, f.fp - 1)], w)
    else if op == NOT then
      Next(callers, f, 3, regs[r := if Truthy(Get(regs, f.fp + b)) then FalseV else TrueV], w)
    else if op == LOADS then
      if 0 <= b < |c.strs| then Next(callers, f, 3, regs[r := StrV(c.strs[b])], w) else Crashed
    else if op == LOADC then
      if 0 <= b < |c.codes| then Next(callers, f, 3, regs[r := MethodV(MethodRef(c.codes[b], f.clos))], w)
      else Crashed
    else Crashed
  }

  /** The instructions that read or change closures or the rest of the heap. */
  function WorldStep(p: Program, op: int, callers: seq<Frame>, f: Frame, regs: Regs, w: World): State {
    var c, q := Code(p, f), f.ip;
    var a, b, d := At(c.code, q + 1), At(c.code, q + 2), At(c.code, q + 3);
    if op == LVAR then
      match GetAtDepth(w, f.clos, b, d) {
        case BadSlot => Crashed
        case Holds(v) => Next(callers, f, 4, regs[f.fp + a := v], w)
      }
    else if op == SVAR then
      match SetAtDepth(w, f.clos, a, b, Get(regs, f.fp + SignedByte(d))) {
        case None => Crashed
        case Some(w') => Next(callers, f, 4, regs, w')
      }
    else if 0 <= d then
      var vs := Window(regs, f.fp + b, d);
      var (v, w') := if op == TUPLE then p.env.makeTuple(w, vs) else p.env.makeList(w, vs);
      Next(callers, f, 4, regs[f.fp + a := v], w')
    else Crashed
  }

  /** The instructions that only choose the next instruction or change the handler stack. */
  function JumpStep(p: Program, op: int, callers: seq<Frame>, f: Frame, regs: Regs, w: World): State {
    var c, q := Code(p, f), f.ip;
    var a, b := At(c.code, q + 1), At(c.code, q + 2);
    if op == JMPF then Next(callers, f, 2 + a, regs, w)
    else if op == JMPB then Next(callers, f, -a, regs, w)
    else if op == JMPIT then Next(callers, f, if Truthy(Get(regs, f.fp + a)) then 3 + b else 3, regs, w)
    else if op == JMPIF then Next(callers, f, if Truthy(Get(regs, f.fp + a)) then 3 else 3 + b, regs, w)
    else if op == REGE then Next(callers, f.(es := f.es + [Handler(a, b)]), 3, regs, w)
    else if op == POPE && f.es != [] then Next(callers, f.(es := f.es[..|f.es| - 1]), 1, regs, w)
    else Crashed
  }

  /** The instructions that leave the activation or look for a handler. */
  function LeaveStep(p: Program, op: int, callers: seq<Frame>, f: Frame, regs: Regs, w: World): State {
    var v := Get(regs, f.fp + At(Code(p, f).code, f.ip + 1));
    if op == RET then Deliver(p, callers, Ret(v), regs, w)
    else if op == LRET then
      match Target(w, f.m.closure) {
        case None => Crashed
        case Some(target) => Deliver(p, callers, LongRet(v, target), regs, w)
      }
    else
      match Wrap(p.env, v, w) {
        case None => Crashed
        case Some((x, w')) => Deliver(p, callers + [f], Unwind(x), regs, w')
      }
  }

  /** One turn of the loop of `VM::run`. */
  function Step(p: Program, s: State): State {
    match s
    case Running(callers, f, regs, w) =>
      var c := Code(p, f).code;
      if f.ip < 0 || f.ip >= |c| then Deliver(p, callers, Ret(NilV), regs, w)
      else
        var op := c[f.ip];
        if op == SEND then SendStep(p, callers, f, regs, w)
        else if op == LVAR || op == SVAR || op == TUPLE || op == LIST then WorldStep(p, op, callers, f, regs, w)
        else if op == JMPF || op == JMPB || op == JMPIT || op == JMPIF || op == REGE || op == POPE then
          JumpStep(p, op, callers, f, regs, w)
        else if op == RET || op == LRET || op == RAISE then LeaveStep(p, op, callers, f, regs, w)
        else MoveStep(p, op, callers, f, regs, w)
    case _ => s
  }

  function Steps(p: Program, s: State, n: nat): State
    decreases n
  {
    if n == 0 then s else Steps(p, Step(p, s), n - 1)
  }

  lemma {:induction false} StepsAdd(p: Program, s: State, m: nat, n: nat)
    ensures Steps(p, s, m + n) == Steps(p, Steps(p, s, m), n)
    decreases m
  {
    if m > 0 { StepsAdd(p, Step(p, s), m - 1, n); }
  }
}
