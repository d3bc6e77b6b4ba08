/**
 What a tree means: an evaluator over trees and local variables that knows nothing of registers,
 bytecode, windows or handler stacks.
 */
module Evaluator {
  import opened Ast
  import opened Emission
  import opened Machine

  /** The register locals of an activation; a local nothing was assigned to has no value. */
  type Locals = seq<Option<Value>>

  datatype Ctx = Ctx(self: Value, clos: nat, m: MethodRef)

  /**
   The result of evaluating a node: a value, an exception, or the end of the activation. `Junk`
   marks an evaluation that reads a register local before any assignment to it, `Timeout` one that
   needs more fuel, `Abort` one in which a check of the runtime fails.
   */
  datatype Res =
    | Norm(v: Value, locals: Locals, w: World)
    | Exc(e: nat, locals: Locals, w: World)
    | Leave(o: Outcome, w: World)
    | Junk
    | Timeout
    | Abort

  datatype Vals = Vals(vs: seq<Value>, locals: Locals, w: World) | Stopped(r: Res)

  datatype CallRes = Came(o: Outcome, w: World) | CallJunk | CallTimeout | CallAbort

  function Read(x: Ctx, l: Option<Loc>, locals: Locals, w: World): Res {
    match l
    case None => Abort
    case Some(Reg(r)) =>
      if r == -1 then Norm(x.self, locals, w)
      else if 0 <= r < |locals| && locals[r].Some? then Norm(locals[r].value, locals, w)
      else Junk
    case Some(Clo(d, i)) =>
      match GetAtDepth(w, x.clos, d, i)
      case BadSlot => Abort
      case Holds(v) => Norm(v, locals, w)
  }

  /** Assigns `v`; the result's value is `v`. */
  function Write(x: Ctx, l: Option<Loc>, v: Value, locals: Locals, w: World): Res {
    match l
    case None => Abort
    case Some(Reg(r)) => if 0 <= r < |locals| then Norm(v, locals[r := Some(v)], w) else Abort
    case Some(Clo(d, i)) =>
      match SetAtDepth(w, x.clos, d, i, v)
      case None => Abort
      case Some(w') => Norm(v, locals, w')
  }

  function WriteTo(x: Ctx, l: Option<Loc>, r: Res): Res {
    if r.Norm? then Write(x, l, r.v, r.locals, r.w) else r
  }

  function RaiseWith(env: Env, v: Value, locals: Locals, w: World): Res {
    match Wrap(env, v, w)
    case None => Abort
    case Some((e, w')) => Exc(e, locals, w')
  }

  function ReturnWith(x: Ctx, v: Value, w: World): Res {
    if x.m.code.kind != Block then Leave(Ret(v), w)
    else
      match Target(w, x.m.closure)
      case None => Abort
      case Some(target) => Leave(LongRet(v, target), w)
  }

  /** Evaluates `e` with enough `fuel` for that many nested calls and loop iterations. */
  function Eval(p: Program, x: Ctx, e: Node, locals: Locals, w: World, fuel: nat): Res
    decreases fuel, 1, e, 1
  {
    match e
    case Seq(a, b) =>
      var r := Eval(p, x, a, locals, w, fuel);
      if r.Norm? then Eval(p, x, b, r.locals, r.w, fuel) else r
    case Number(v) => Norm(IntV(v), locals, w)
    case Nil => Norm(NilV, locals, w)
    case True => Norm(TrueV, locals, w)
    case False => Norm(FalseV, locals, w)
    case LiteralString(s) => Norm(StrV(s), locals, w)
    case Self(id) => Read(x, p.lay.At(id), locals, w)
    case Named(id, name) =>
      if p.lay.At(id).None? then EvalCall(p, x, x.self, name, [], locals, w, fuel)
      else Read(x, p.lay.At(id), locals, w)
    case Assign(id, _, v) => WriteTo(x, p.lay.At(id), Eval(p, x, v, locals, w, fuel))
    case AssignOp(id, _, op, v) =>
      var r := Read(x, p.lay.At(id), locals, w);
      if !r.Norm? then r
      else
        var r2 := Eval(p, x, v, r.locals, r.w, fuel);
        if !r2.Norm? then r2
        else WriteTo(x, p.lay.At(id), EvalCall(p, x, r.v, op, [r2.v], r2.locals, r2.w, fuel))
    case Not(v) =>
      var r := Eval(p, x, v, locals, w, fuel);
      if r.Norm? then r.(v := if Truthy(r.v) then FalseV else TrueV) else r
    case And(a, b) =>
      var r := Eval(p, x, a, locals, w, fuel);
      if r.Norm? && Truthy(r.v) then Eval(p, x, b, r.locals, r.w, fuel) else r
    case IfCond(c, a, b) =>
      var r := Eval(p, x, c, locals, w, fuel);
      if !r.Norm? then r
      else if Truthy(r.v) then Eval(p, x, a, r.locals, r.w, fuel)
      else if b.Some? then Eval(p, x, b.value, r.locals, r.w, fuel)
      else r
    case Unless(c, a) =>
      var r := Eval(p, x, c, locals, w, fuel);
      if r.Norm? && !Truthy(r.v) then Eval(p, x, a, r.locals, r.w, fuel) else r
    case While(c, a) =>
      var r := Eval(p, x, c, locals, w, fuel);
      if !(r.Norm? && Truthy(r.v)) then r
      else
        var r2 := Eval(p, x, a, r.locals, r.w, fuel);
        if !r2.Norm? then r2
        else if fuel == 0 then Timeout
        else Eval(p, x, e, r2.locals, r2.w, fuel - 1)
    case Tuple(args) =>
      match EvalArgs(p, x, args, locals, w, fuel) {
        case Stopped(r) => r
        case Vals(vs, l, w1) => var (v, w2) := p.env.makeTuple(w1, vs); Norm(v, l, w2)
      }
    case List(args) =>
      match EvalArgs(p, x, args, locals, w, fuel) {
        case Stopped(r) => r
        case Vals(vs, l, w1) => var (v, w2) := p.env.makeList(w1, vs); Norm(v, l, w2)
      }
    case Send(id, name, selfLess, recv, args) =>
      var local := selfLess && p.lay.At(id).Some?;
      var r := if local then Read(x, p.lay.At(id), locals, w) else Eval(p, x, recv, locals, w, fuel);
      if !r.Norm? then r
      else
        match EvalArgs(p, x, args, r.locals, r.w, fuel) {
          case Stopped(r2) => r2
          case Vals(vs, l, w2) => EvalCall(p, x, r.v, if local then "apply" else name, vs, l, w2, fuel)
        }
    case Raise(v) =>
      var r := Eval(p, x, v, locals, w, fuel);
      if r.Norm? then RaiseWith(p.env, r.v, r.locals, r.w) else r
    case Try(_, body, _, _, _) =>
      var r := Eval(p, x, body, locals, w, fuel);
      if r.Exc? then EvalHandler(p, x, e, r.e, r.locals, r.w, fuel) else r
    case Return(v) =>
      var r := Eval(p, x, v, locals, w, fuel);
      if r.Norm? then ReturnWith(x, r.v, r.w) else r
    case Lambda(s) => Norm(MethodV(MethodRef(Template(s, Block), x.clos)), locals, w)
    case Def(name, s) =>
      EvalCall(p, x, x.self, "add_method", [StrV(name), MethodV(MethodRef(Template(s, Method), x.clos))],
               locals, w, fuel)
  }

  /** The handler of a try node: a typed handler that does not match raises the exception again. */
  function EvalHandler(p: Program, x: Ctx, e: Node, exc: nat, locals: Locals, w: World, fuel: nat): Res
    requires e.Try?
    decreases fuel, 1, e, 0
  {
    if e.excName.None? || e.excType.None? then Eval(p, x, e.handler, locals, w, fuel)
    else
      var r := Eval(p, x, e.excType.value, locals, w, fuel);
      if !r.Norm? then r
      else
        var r2 := EvalCall(p, x, r.v, "===", [ExcV(exc)], r.locals, r.w, fuel);
        if !r2.Norm? then r2
        else if !Truthy(r2.v) then Exc(exc, r2.locals, r2.w)
        else
          var r3 := Write(x, p.lay.At(e.id), ExcV(exc), r2.locals, r2.w);
          if r3.Norm? then Eval(p, x, e.handler, r3.locals, r3.w, fuel) else r3
  }

  function EvalArgs(p: Program, x: Ctx, es: Nodes, locals: Locals, w: World, fuel: nat): Vals
    decreases fuel, 1, es, 1
  {
    match es
    case NoNodes => Vals([], locals, w)
    case More(e, rest) =>
      var r := Eval(p, x, e, locals, w, fuel);
      if !r.Norm? then Stopped(r)
      else
        match EvalArgs(p, x, rest, r.locals, r.w, fuel)
        case Stopped(r2) => Stopped(r2)
        case Vals(vs, l, w2) => Vals([r.v] + vs, l, w2)
  }

  /** A call as the calling activation sees it: a return to this activation's own closure ends it. */
  function Finish(c: CallRes, clos: nat, locals: Locals): Res {
    match c
    case Came(Ret(v), w) => Norm(v, locals, w)
    case Came(Unwind(e), w) => Exc(e, locals, w)
    case Came(LongRet(v, target), w) => Leave(if target == clos then Ret(v) else LongRet(v, target), w)
    case CallJunk => Junk
    case CallTimeout => Timeout
    case CallAbort => Abort
  }

  function EvalCall(p: Program, x: Ctx, recv: Value, name: string, args: seq<Value>, locals: Locals, w: World,
                    fuel: nat): Res
    decreases fuel, 0
  {
    Finish(CallOf(p, recv, name, args, w, fuel), x.clos, locals)
  }

  function CallOf(p: Program, recv: Value, name: string, args: seq<Value>, w: World, fuel: nat): CallRes
    decreases fuel, 0, 0
  {
    match p.env.find(w, recv, name)
    case NotFound => var (e, w') := p.env.missing(w, name); Came(Unwind(e), w')
    case Native => var r := p.env.native(w, recv, name, args); Came(r.o, r.w)
    case Bytecode(m, checked) =>
      if checked && Arity(m) > 0 && |args| != Arity(m) then
        var (e, w') := p.env.badArity(w, Arity(m), |args|); Came(Unwind(e), w')
      else if fuel == 0 then CallTimeout
      else Activate(p, m, recv, args, w, fuel - 1)
  }

  /** The place of a captured argument takes the argument's value. */
  function StoreArgument(p: Program, x: Ctx, a: Argument, v: Option<Value>, w: World): Res {
    match p.lay.At(a.id)
    case Some(Clo(d, i)) => if v.None? then Junk else Write(x, Some(Clo(d, i)), v.value, [], w)
    case _ => Norm(NilV, [], w)
  }

  function StoreArguments(p: Program, x: Ctx, params: seq<Argument>, i: nat, args: seq<Value>, w: World): Res
    requires i <= |params|
    decreases |params| - i
  {
    if i == |params| then Norm(NilV, [], w)
    else
      var r := StoreArgument(p, x, params[i], if i < |args| then Some(args[i]) else None, w);
      if r.Norm? then StoreArguments(p, x, params, i + 1, args, r.w) else r
  }

  function Prolog(p: Program, x: Ctx, args: seq<Value>, w: World): Res {
    var s := x.m.code.scope;
    var r := if s.self.Some? then StoreArgument(p, x, s.self.value, Some(x.self), w) else Norm(NilV, [], w);
    if r.Norm? then StoreArguments(p, x, s.args, 0, args, r.w) else r
  }

  function InitialLocals(n: nat, args: seq<Value>): (r: Locals)
    ensures |r| == n
  {
    seq(n, i requires 0 <= i < n => if i < |args| then Some(args[i]) else None)
  }

  /** What leaving an activation with `r` hands to the caller. A file body always gives nil. */
  function Exit(k: Kind, r: Res): CallRes {
    match r
    case Norm(v, _, w) => Came(Ret(if k == Top then NilV else v), w)
    case Exc(e, _, w) => Came(Unwind(e), w)
    case Leave(o, w) => Came(o, w)
    case Junk => CallJunk
    case Timeout => CallTimeout
    case Abort => CallAbort
  }

  /** Runs a method object: a fresh closure, its captured arguments, then its body. */
  function Activate(p: Program, m: MethodRef, self: Value, args: seq<Value>, w: World, fuel: nat): CallRes
    decreases fuel, 2
  {
    var x := Ctx(self, |w.closures|, m);
    var r := Prolog(p, x, args, WithClosure(p, m, w));
    Exit(m.code.kind,
         if r.Norm? then
           Eval(p, x, m.code.scope.body, InitialLocals(TempBase(p.lay, m.code.scope, m.code.kind), args), r.w, fuel)
         else r)
  }
}
