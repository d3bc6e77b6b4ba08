/**
 What a program means in terms of its names: every activation has its variables by name, a name is found as many
 scopes out as lexical scoping says, and there are no registers, slots or indices.
 */
module NameEvaluator {
  import opened Ast
  import opened Emission
  import opened Machine
  import opened NonLocalReturn
  import opened Evaluator

  /** The heap with the chains of activations, and the variables of each activation that have a value. */
  datatype Memory = Memory(w: World, vars: seq<map<string, Value>>)

  /** A program as its names see it: the runtime, and for every name how many scopes out its variable is. */
  datatype Source = Source(env: Env, depths: map<nat, nat>)

  /** `Unset` marks an evaluation that uses a variable without a value, or one that calls with too few arguments. */
  datatype NameRes =
    | Gives(v: Value, m: Memory)
    | Throws(e: nat, m: Memory)
    | Ends(o: Outcome, m: Memory)
    | Unset
    | NoFuel
    | Fails

  datatype NameVals = Values(vs: seq<Value>, m: Memory) | Halts(r: NameRes)

  datatype NameCall = Comes(o: Outcome, m: Memory) | CallUnset | CallNoFuel | CallFails

  /** The runtime changes the rest of the heap, never a variable. */
  function Heap(m: Memory, w: World): Memory { m.(w := m.w.(heap := w.heap)) }

  /** Whose variable a node's name is. */
  function Whose(p: Source, x: Ctx, id: nat, m: Memory): (a: Option<nat>)
    ensures a.Some? ==> a.value < |m.vars|
  {
    if id !in p.depths then None
    else
      match Ancestor(m.w, x.clos, p.depths[id])
      case Some(a) => if a < |m.vars| then Some(a) else None
      case None => None
  }

  function Recall(p: Source, x: Ctx, id: nat, name: string, m: Memory): NameRes {
    match Whose(p, x, id, m)
    case None => Fails
    case Some(a) => if name in m.vars[a] then Gives(m.vars[a][name], m) else Unset
  }

  /** Assigns `v`; the result's value is `v`. */
  function Remember(p: Source, x: Ctx, id: nat, name: string, v: Value, m: Memory): NameRes {
    match Whose(p, x, id, m)
    case None => Fails
    case Some(a) => Gives(v, m.(vars := m.vars[a := m.vars[a][name := v]]))
  }

  function RememberIn(p: Source, x: Ctx, id: nat, name: string, r: NameRes): NameRes {
    if r.Gives? then Remember(p, x, id, name, r.v, r.m) else r
  }

  function RaiseName(p: Source, v: Value, m: Memory): NameRes {
    match Wrap(p.env, v, m.w)
    case None => Fails
    case Some((e, w)) => Throws(e, Heap(m, w))
  }

  function ReturnName(x: Ctx, v: Value, m: Memory): NameRes {
    if x.m.code.kind != Block then Ends(Ret(v), m)
    else
      match Target(m.w, x.m.closure)
      case None => Fails
      case Some(target) => Ends(LongRet(v, target), m)
  }

  /** Evaluates `e` with enough `fuel` for that many nested calls and loop iterations. */
  function EvalName(p: Source, x: Ctx, e: Node, m: Memory, fuel: nat): NameRes
    decreases fuel, 1, e, 1
  {
    match e
    case Seq(a, b) =>
      var r := EvalName(p, x, a, m, fuel);
      if r.Gives? then EvalName(p, x, b, r.m, fuel) else r
    case Number(v) => Gives(IntV(v), m)
    case Nil => Gives(NilV, m)
    case True => Gives(TrueV, m)
    case False => Gives(FalseV, m)
    case LiteralString(s) => Gives(StrV(s), m)
    case Self(id) => Recall(p, x, id, "self", m)
    case Named(id, name) =>
      if id !in p.depths then CallName(p, x, x.self, name, [], m, fuel) else Recall(p, x, id, name, m)
    case Assign(id, name, v) => RememberIn(p, x, id, name, EvalName(p, x, v, m, fuel))
    case AssignOp(id, name, op, v) =>
      var r := Recall(p, x, id, name, m);
      if !r.Gives? then r
      else
        var r2 := EvalName(p, x, v, r.m, fuel);
        if !r2.Gives? then r2 else RememberIn(p, x, id, name, CallName(p, x, r.v, op, [r2.v], r2.m, fuel))
    case Not(v) =>
      var r := EvalName(p, x, v, m, fuel);
      if r.Gives? then r.(v := if Truthy(r.v) then FalseV else TrueV) else r
    case And(a, b) =>
      var r := EvalName(p, x, a, m, fuel);
      if r.Gives? && Truthy(r.v) then EvalName(p, x, b, r.m, fuel) else r
    case IfCond(c, a, b) =>
      var r := EvalName(p, x, c, m, fuel);
      if !r.Gives? then r
      else if Truthy(r.v) then EvalName(p, x, a, r.m, fuel)
      else if b.Some? then EvalName(p, x, b.value, r.m, fuel)
      else r
    case Unless(c, a) =>
      var r := EvalName(p, x, c, m, fuel);
      if r.Gives? && !Truthy(r.v) then EvalName(p, x, a, r.m, fuel) else r
    case While(c, a) =>
      var r := EvalName(p, x, c, m, fuel);
      if !(r.Gives? && Truthy(r.v)) then r
      else
        var r2 := EvalName(p, x, a, r.m, fuel);
        if !r2.Gives? then r2
        else if fuel == 0 then NoFuel
        else EvalName(p, x, e, r2.m, fuel - 1)
    case Tuple(args) =>
      match EvalNames(p, x, args, m, fuel) {
        case Halts(r) => r
        case Values(vs, m1) => var (v, w) := p.env.makeTuple(m1.w, vs); Gives(v, Heap(m1, w))
      }
    case List(args) =>
      match EvalNames(p, x, args, m, fuel) {
        case Halts(r) => r
        case Values(vs, m1) => var (v, w) := p.env.makeList(m1.w, vs); Gives(v, Heap(m1, w))
      }
    case Send(id, name, selfLess, recv, args) =>
      var local := selfLess && id in p.depths;
      var r := if local then Recall(p, x, id, name, m) else EvalName(p, x, recv, m, fuel);
      if !r.Gives? then r
      else
        match EvalNames(p, x, args, r.m, fuel) {
          case Halts(r2) => r2
          case Values(vs, m2) => CallName(p, x, r.v, if local then "apply" else name, vs, m2, fuel)
        }
    case Raise(v) =>
      var r := EvalName(p, x, v, m, fuel);
      if r.Gives? then RaiseName(p, r.v, r.m) else r
    case Try(_, body, _, _, _) =>
      var r := EvalName(p, x, body, m, fuel);
      if r.Throws? then HandleName(p, x, e, r.e, r.m, fuel) else r
    case Return(v) =>
      var r := EvalName(p, x, v, m, fuel);
      if r.Gives? then ReturnName(x, r.v, r.m) else r
    case Lambda(s) => Gives(MethodV(MethodRef(Template(s, Block), x.clos)), m)
    case Def(name, s) =>
      CallName(p, x, x.self, "add_method", [StrV(name), MethodV(MethodRef(Template(s, Method), x.clos))], m, fuel)
  }

  /** The handler of a try node: a typed handler that does not match raises the exception again. */
  function HandleName(p: Source, x: Ctx, e: Node, exc: nat, m: Memory, fuel: nat): NameRes
    requires e.Try?
    decreases fuel, 1, e, 0
  {
    if e.excName.None? || e.excType.None? then EvalName(p, x, e.handler, m, fuel)
    else
      var r := EvalName(p, x, e.excType.value, m, fuel);
      if !r.Gives? then r
      else
        var r2 := CallName(p, x, r.v, "===", [ExcV(exc)], r.m, fuel);
        if !r2.Gives? then r2
        else if !Truthy(r2.v) then Throws(exc, r2.m)
        else
          var r3 := Remember(p, x, e.id, e.excName.value, ExcV(exc), r2.m);
          if r3.Gives? then EvalName(p, x, e.handler, r3.m, fuel) else r3
  }

  function EvalNames(p: Source, x: Ctx, es: Nodes, m: Memory, fuel: nat): NameVals
    decreases fuel, 1, es, 1
  {
    match es
    case NoNodes => Values([], m)
    case More(e, rest) =>
      var r := EvalName(p, x, e, m, fuel);
      if !r.Gives? then Halts(r)
      else
        match EvalNames(p, x, rest, r.m, fuel)
        case Halts(r2) => Halts(r2)
        case Values(vs, m2) => Values([r.v] + vs, m2)
  }

  /** A call as the calling activation sees it: a return to this activation's own closure ends it. */
  function Taken(c: NameCall, clos: nat): NameRes {
    match c
    case Comes(Ret(v), m) => Gives(v, m)
    case Comes(Unwind(e), m) => Throws(e, m)
    case Comes(LongRet(v, target), m) => Ends(if target == clos then Ret(v) else LongRet(v, target), m)
    case CallUnset => Unset
    case CallNoFuel => NoFuel
    case CallFails => Fails
  }

  function CallName(p: Source, x: Ctx, recv: Value, name: string, args: seq<Value>, m: Memory, fuel: nat): NameRes
    decreases fuel, 0
  {
    Taken(Called(p, recv, name, args, m, fuel), x.clos)
  }

  function Called(p: Source, recv: Value, name: string, args: seq<Value>, m: Memory, fuel: nat): NameCall
    decreases fuel, 0, 0
  {
    match p.env.find(m.w, recv, name)
    case NotFound => var (e, w) := p.env.missing(m.w, name); Comes(Unwind(e), Heap(m, w))
    case Native => var r := p.env.native(m.w, recv, name, args); Comes(r.o, Heap(m, r.w))
    case Bytecode(f, checked) =>
      if checked && Arity(f) > 0 && |args| != Arity(f) then
        var (e, w) := p.env.badArity(m.w, Arity(f), |args|); Comes(Unwind(e), Heap(m, w))
      else if fuel == 0 then CallNoFuel
      else RunName(p, f, recv, args, m, fuel - 1)
  }

  /** The variables `vars` and the parameters with their arguments. */
  function Parameters(vars: map<string, Value>, params: seq<Argument>, args: seq<Value>): map<string, Value>
    requires |params| <= |args|
    decreases |params|
  {
    if params == [] then vars
    else
      var n := |params| - 1;
      Parameters(vars, params[..n], args)[params[n].name := args[n]]
  }

  function Variables(s: Scope, self: Value, args: seq<Value>): map<string, Value>
    requires |s.args| <= |args|
  {
    Parameters(if s.self.Some? then map[s.self.value.name := self] else map[], s.args, args)
  }

  /** A new activation, made in the closure of the method object. */
  function Made(f: MethodRef, vars: map<string, Value>, m: Memory): Memory {
    Memory(m.w.(closures := m.w.closures + [Closure(Some(f.closure), [], f.code.kind == Method, f.code)]),
           m.vars + [vars])
  }

  /** What leaving an activation with `r` hands to the caller. A file body always gives nil. */
  function Left(k: Kind, r: NameRes): NameCall {
    match r
    case Gives(v, m) => Comes(Ret(if k == Top then NilV else v), m)
    case Throws(e, m) => Comes(Unwind(e), m)
    case Ends(o, m) => Comes(o, m)
    case Unset => CallUnset
    case NoFuel => CallNoFuel
    case Fails => CallFails
  }

  /** Runs a method object: a new activation with its parameters, then its body. */
  function RunName(p: Source, f: MethodRef, self: Value, args: seq<Value>, m: Memory, fuel: nat): NameCall
    decreases fuel, 2
  {
    var s := f.code.scope;
    if |args| < |s.args| then CallUnset
    else
      Left(f.code.kind,
           EvalName(p, Ctx(self, |m.w.closures|, f), s.body, Made(f, Variables(s, self, args), m), fuel))
  }
}
