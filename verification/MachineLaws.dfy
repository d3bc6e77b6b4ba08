/**
 What the machine and both evaluators have in common, told without the functions they share: which values count as
 false, when a call starts an activation, what becomes of a raised value, and the numbers of the instructions.
 */
module MachineLaws {
  import opened Ast
  import opened Emission
  import opened Machine
  import opened Evaluator
  import opened NameEvaluator

  // ----- conditions on the machine -----

  /** The activation is about to execute that instruction. */
  ghost predicate Executes(p: Program, f: Frame, op: int) {
    0 <= f.ip < |Code(p, f).code| && Code(p, f).code[f.ip] == op
  }

  /** The register that operand `n` of the instruction names. */
  function Operand(p: Program, f: Frame, n: nat, regs: Regs): Value {
    Get(regs, f.fp + At(Code(p, f).code, f.ip + n))
  }

  /** `JMPIF` goes on with the next instruction for every value but nil and false, and jumps for these two. */
  lemma JumpsIfFalse(p: Program, callers: seq<Frame>, f: Frame, regs: Regs, w: World)
    requires Executes(p, f, JMPIF)
    ensures Step(p, Running(callers, f, regs, w)) ==
      Running(callers, f.(ip := f.ip + match Operand(p, f, 1, regs)
        case NilV => 3 + At(Code(p, f).code, f.ip + 2)
        case FalseV => 3 + At(Code(p, f).code, f.ip + 2)
        case _ => 3), regs, w)
  {
    hide CodeOf;
  }

  /** `JMPIT` jumps for every value but nil and false, and goes on with the next instruction for these two. */
  lemma JumpsIfTrue(p: Program, callers: seq<Frame>, f: Frame, regs: Regs, w: World)
    requires Executes(p, f, JMPIT)
    ensures Step(p, Running(callers, f, regs, w)) ==
      Running(callers, f.(ip := f.ip + match Operand(p, f, 1, regs)
        case NilV => 3
        case FalseV => 3
        case _ => 3 + At(Code(p, f).code, f.ip + 2)), regs, w)
  {
    hide CodeOf;
  }

  /** `NOT` leaves true for nil and false, and false for every other value. */
  lemma Negates(p: Program, callers: seq<Frame>, f: Frame, regs: Regs, w: World)
    requires Executes(p, f, NOT)
    ensures Step(p, Running(callers, f, regs, w)) ==
      Running(callers, f.(ip := f.ip + 3), regs[f.fp + At(Code(p, f).code, f.ip + 1) := match Operand(p, f, 2, regs)
        case NilV => TrueV
        case FalseV => TrueV
        case _ => FalseV], w)
  {
    hide CodeOf;
  }

  // ----- conditions in trees -----

  /** The node whose value a conditional node looks at. */
  function Tested(e: Node): Node {
    match e
    case IfCond(c, _, _) => c
    case Unless(c, _) => c
    case And(l, _) => l
    case Not(v) => v
    case _ => e
  }

  lemma IfIs(p: Program, x: Ctx, e: Node, locals: Locals, w: World, fuel: nat)
    requires e.IfCond? && Eval(p, x, e.cond, locals, w, fuel).Norm?
    ensures var r := Eval(p, x, e.cond, locals, w, fuel);
      Eval(p, x, e, locals, w, fuel) ==
      if r.v !in {NilV, FalseV} then Eval(p, x, e.body, r.locals, r.w, fuel)
      else if e.ebody.Some? then Eval(p, x, e.ebody.value, r.locals, r.w, fuel) else r
  {
    hide EvalCall, Read, WriteTo, EvalArgs, EvalHandler, RaiseWith, ReturnWith;
  }

  lemma UnlessIs(p: Program, x: Ctx, e: Node, locals: Locals, w: World, fuel: nat)
    requires e.Unless? && Eval(p, x, e.cond, locals, w, fuel).Norm?
    ensures var r := Eval(p, x, e.cond, locals, w, fuel);
      Eval(p, x, e, locals, w, fuel) ==
      if r.v in {NilV, FalseV} then Eval(p, x, e.body, r.locals, r.w, fuel) else r
  {
    hide EvalCall, Read, WriteTo, EvalArgs, EvalHandler, RaiseWith, ReturnWith;
  }

  lemma AndIs(p: Program, x: Ctx, e: Node, locals: Locals, w: World, fuel: nat)
    requires e.And? && Eval(p, x, e.left, locals, w, fuel).Norm?
    ensures var r := Eval(p, x, e.left, locals, w, fuel);
      Eval(p, x, e, locals, w, fuel) ==
      if r.v in {NilV, FalseV} then r else Eval(p, x, e.right, r.locals, r.w, fuel)
  {
    hide EvalCall, Read, WriteTo, EvalArgs, EvalHandler, RaiseWith, ReturnWith;
  }

  lemma NotIs(p: Program, x: Ctx, e: Node, locals: Locals, w: World, fuel: nat)
    requires e.Not? && Eval(p, x, e.value, locals, w, fuel).Norm?
    ensures var r := Eval(p, x, e.value, locals, w, fuel);
      Eval(p, x, e, locals, w, fuel) ==
      r.(v := if r.v in {NilV, FalseV} then TrueV else FalseV)
  {
    hide EvalCall, Read, WriteTo, EvalArgs, EvalHandler, RaiseWith, ReturnWith;
  }

  /**
   The value of the tested node decides, and only nil and false do not count as true: a conditional takes its body for
   every other value, `unless` for these two, `and` its second operand for every other, and `!` tells which it is.
   */
  lemma Conditions(p: Program, x: Ctx, e: Node, locals: Locals, w: World, fuel: nat)
    requires (e.IfCond? || e.Unless? || e.And? || e.Not?) && Eval(p, x, Tested(e), locals, w, fuel).Norm?
    ensures var r := Eval(p, x, Tested(e), locals, w, fuel);
      Eval(p, x, e, locals, w, fuel) ==
      if r.v in {NilV, FalseV} then
        if e.IfCond? && e.ebody.Some? then Eval(p, x, e.ebody.value, r.locals, r.w, fuel)
        else if e.Unless? then Eval(p, x, e.body, r.locals, r.w, fuel)
        else if e.Not? then r.(v := TrueV)
        else r
      else
        if e.IfCond? then Eval(p, x, e.body, r.locals, r.w, fuel)
        else if e.And? then Eval(p, x, e.right, r.locals, r.w, fuel)
        else if e.Not? then r.(v := FalseV)
        else r
  {
    hide Eval;
    if e.IfCond? {
      IfIs(p, x, e, locals, w, fuel);
    } else if e.Unless? {
      UnlessIs(p, x, e, locals, w, fuel);
    } else if e.And? {
      AndIs(p, x, e, locals, w, fuel);
    } else {
      NotIs(p, x, e, locals, w, fuel);
    }
  }

  /** A loop ends with a condition that is nil or false, and with no other value. */
  lemma LoopTurns(p: Program, x: Ctx, e: Node, locals: Locals, w: World, fuel: nat)
    requires e.While? && Eval(p, x, e.cond, locals, w, fuel).Norm?
    ensures var r := Eval(p, x, e.cond, locals, w, fuel);
      var body := Eval(p, x, e.body, r.locals, r.w, fuel);
      Eval(p, x, e, locals, w, fuel) ==
      if r.v in {NilV, FalseV} then r
      else if !body.Norm? then body
      else if fuel == 0 then Timeout
      else Eval(p, x, e, body.locals, body.w, fuel - 1)
  {
    hide EvalCall, Read, WriteTo, EvalArgs, EvalHandler, RaiseWith, ReturnWith;
  }

  /** A typed handler takes the exception unless `===` gave nil or false. */
  lemma Rescues(p: Program, x: Ctx, e: Node, exc: nat, locals: Locals, w: World, fuel: nat)
    requires e.Try? && e.excName.Some? && e.excType.Some? && Eval(p, x, e.excType.value, locals, w, fuel).Norm?
    ensures var r := Eval(p, x, e.excType.value, locals, w, fuel);
      var q := EvalCall(p, x, r.v, "===", [ExcV(exc)], r.locals, r.w, fuel);
      EvalHandler(p, x, e, exc, locals, w, fuel) ==
      if !q.Norm? then q
      else if q.v in {NilV, FalseV} then Exc(exc, q.locals, q.w)
      else
        var bound := Write(x, p.lay.At(e.id), ExcV(exc), q.locals, q.w);
        if bound.Norm? then Eval(p, x, e.handler, bound.locals, bound.w, fuel) else bound
  {}

  lemma NamedIfIs(p: Source, x: Ctx, e: Node, m: Memory, fuel: nat)
    requires e.IfCond? && EvalName(p, x, e.cond, m, fuel).Gives?
    ensures var r := EvalName(p, x, e.cond, m, fuel);
      EvalName(p, x, e, m, fuel) ==
      if r.v !in {NilV, FalseV} then EvalName(p, x, e.body, r.m, fuel)
      else if e.ebody.Some? then EvalName(p, x, e.ebody.value, r.m, fuel) else r
  {
    hide CallName, Recall, RememberIn, EvalNames, HandleName, RaiseName, ReturnName;
  }

  lemma NamedUnlessIs(p: Source, x: Ctx, e: Node, m: Memory, fuel: nat)
    requires e.Unless? && EvalName(p, x, e.cond, m, fuel).Gives?
    ensures var r := EvalName(p, x, e.cond, m, fuel);
      EvalName(p, x, e, m, fuel) ==
      if r.v in {NilV, FalseV} then EvalName(p, x, e.body, r.m, fuel) else r
  {
    hide CallName, Recall, RememberIn, EvalNames, HandleName, RaiseName, ReturnName;
  }

  lemma NamedAndIs(p: Source, x: Ctx, e: Node, m: Memory, fuel: nat)
    requires e.And? && EvalName(p, x, e.left, m, fuel).Gives?
    ensures var r := EvalName(p, x, e.left, m, fuel);
      EvalName(p, x, e, m, fuel) ==
      if r.v in {NilV, FalseV} then r else EvalName(p, x, e.right, r.m, fuel)
  {
    hide CallName, Recall, RememberIn, EvalNames, HandleName, RaiseName, ReturnName;
  }

  lemma NamedNotIs(p: Source, x: Ctx, e: Node, m: Memory, fuel: nat)
    requires e.Not? && EvalName(p, x, e.value, m, fuel).Gives?
    ensures var r := EvalName(p, x, e.value, m, fuel);
      EvalName(p, x, e, m, fuel) ==
      r.(v := if r.v in {NilV, FalseV} then TrueV else FalseV)
  {
    hide CallName, Recall, RememberIn, EvalNames, HandleName, RaiseName, ReturnName;
  }

  /** The same of the names. */
  lemma NamedConditions(p: Source, x: Ctx, e: Node, m: Memory, fuel: nat)
    requires (e.IfCond? || e.Unless? || e.And? || e.Not?) && EvalName(p, x, Tested(e), m, fuel).Gives?
    ensures var r := EvalName(p, x, Tested(e), m, fuel);
      EvalName(p, x, e, m, fuel) ==
      if r.v in {NilV, FalseV} then
        if e.IfCond? && e.ebody.Some? then EvalName(p, x, e.ebody.value, r.m, fuel)
        else if e.Unless? then EvalName(p, x, e.body, r.m, fuel)
        else if e.Not? then r.(v := TrueV)
        else r
      else
        if e.IfCond? then EvalName(p, x, e.body, r.m, fuel)
        else if e.And? then EvalName(p, x, e.right, r.m, fuel)
        else if e.Not? then r.(v := FalseV)
        else r
  {
    hide EvalName;
    if e.IfCond? {
      NamedIfIs(p, x, e, m, fuel);
    } else if e.Unless? {
      NamedUnlessIs(p, x, e, m, fuel);
    } else if e.And? {
      NamedAndIs(p, x, e, m, fuel);
    } else {
      NamedNotIs(p, x, e, m, fuel);
    }
  }

  lemma NamedLoopTurns(p: Source, x: Ctx, e: Node, m: Memory, fuel: nat)
    requires e.While? && EvalName(p, x, e.cond, m, fuel).Gives?
    ensures var r := EvalName(p, x, e.cond, m, fuel);
      var body := EvalName(p, x, e.body, r.m, fuel);
      EvalName(p, x, e, m, fuel) ==
      if r.v in {NilV, FalseV} then r
      else if !body.Gives? then body
      else if fuel == 0 then NoFuel
      else EvalName(p, x, e, body.m, fuel - 1)
  {
    hide CallName, Recall, RememberIn, EvalNames, HandleName, RaiseName, ReturnName;
  }

  lemma NamedRescues(p: Source, x: Ctx, e: Node, exc: nat, m: Memory, fuel: nat)
    requires e.Try? && e.excName.Some? && e.excType.Some? && EvalName(p, x, e.excType.value, m, fuel).Gives?
    ensures var r := EvalName(p, x, e.excType.value, m, fuel);
      var q := CallName(p, x, r.v, "===", [ExcV(exc)], r.m, fuel);
      HandleName(p, x, e, exc, m, fuel) ==
      if !q.Gives? then q
      else if q.v in {NilV, FalseV} then Throws(exc, q.m)
      else
        var bound := Remember(p, x, e.id, e.excName.value, ExcV(exc), q.m);
        if bound.Gives? then EvalName(p, x, e.handler, bound.m, fuel) else bound
  {}

  // ----- calls -----

  /** A method that has parameters and is called with another number of arguments. */
  ghost predicate Refused(m: MethodRef, checked: bool, argc: nat) {
    checked && m.code.kind == Method && m.code.scope.args != [] && argc != |m.code.scope.args|
  }

  function Nils(n: nat): seq<Value> { seq(n, _ => NilV) }

  /**
   A method with parameters that is called with another number of arguments is not run, and the call raises the error
   of its arity. Everything else that is found is run: in the registers after its receiver, from its first byte, without
   a handler, and with a new closure in the one it was made in, which a `return` may end if it is a method's.
   */
  lemma Starts(p: Program, callers: seq<Frame>, f: Frame, name: string, recv: int, argc: nat, regs: Regs, w: World)
    requires p.env.find(w, Get(regs, f.fp + recv), name).Bytecode?
    ensures var d := p.env.find(w, Get(regs, f.fp + recv), name);
      var n := |d.m.code.scope.args|;
      Call(p, callers, f, name, recv, argc, regs, w) ==
      if Refused(d.m, d.checked, argc) then
        Deliver(p, callers + [f], Unwind(p.env.badArity(w, n, argc).0), regs, p.env.badArity(w, n, argc).1)
      else
        Running(callers + [f], Frame(d.m, f.fp + recv + 1, |w.closures|, 0, []), regs,
                w.(closures := w.closures + [Closure(Some(d.m.closure), Nils(p.lay.Cov(d.m.code.scope)),
                                                     d.m.code.kind == Method, d.m.code)]))
  {
    hide Deliver;
  }

  /** A call as a tree makes it: refused in the same cases, else the method is run. */
  lemma Activates(p: Program, recv: Value, name: string, args: seq<Value>, w: World, fuel: nat)
    requires p.env.find(w, recv, name).Bytecode?
    ensures var d := p.env.find(w, recv, name);
      var n := |d.m.code.scope.args|;
      CallOf(p, recv, name, args, w, fuel) ==
      if Refused(d.m, d.checked, |args|) then
        Came(Unwind(p.env.badArity(w, n, |args|).0), p.env.badArity(w, n, |args|).1)
      else if fuel == 0 then CallTimeout
      else Activate(p, d.m, recv, args, w, fuel - 1)
  {
    hide Activate;
  }

  lemma NamedActivates(p: Source, recv: Value, name: string, args: seq<Value>, m: Memory, fuel: nat)
    requires p.env.find(m.w, recv, name).Bytecode?
    ensures var d := p.env.find(m.w, recv, name);
      var n := |d.m.code.scope.args|;
      Called(p, recv, name, args, m, fuel) ==
      if Refused(d.m, d.checked, |args|) then
        Comes(Unwind(p.env.badArity(m.w, n, |args|).0), Heap(m, p.env.badArity(m.w, n, |args|).1))
      else if fuel == 0 then CallNoFuel
      else RunName(p, d.m, recv, args, m, fuel - 1)
  {
    hide RunName;
  }

  // ----- closures -----

  /** Closures of which each is the parent of the one before. */
  ghost predicate Outwards(w: World, path: seq<nat>) {
    path != [] && (forall i :: 0 <= i < |path| ==> path[i] < |w.closures|) &&
    forall i :: 0 <= i < |path| - 1 ==> w.closures[path[i]].parent == Some(path[i + 1])
  }

  /**
   So many steps outwards stands the closure whose slot is read or written, and nothing else of the world changes; a
   slot it does not have fails a check. Past the outermost closure nil is read and a write does nothing.
   */
  lemma {:induction false} SlotsOnTheWay(w: World, path: seq<nat>, depth: nat, idx: int, v: Value)
    requires Outwards(w, path) && (depth < |path| || w.closures[path[|path| - 1]].parent.None?)
    ensures GetAtDepth(w, path[0], depth, idx) ==
      if depth >= |path| then Holds(NilV)
      else if 0 <= idx < |w.closures[path[depth]].values| then Holds(w.closures[path[depth]].values[idx])
      else BadSlot
    ensures SetAtDepth(w, path[0], depth, idx, v) ==
      if depth >= |path| then Some(w)
      else if 0 <= idx < |w.closures[path[depth]].values| then
        Some(w.(closures := w.closures[path[depth] := w.closures[path[depth]].(
          values := w.closures[path[depth]].values[idx := v])]))
      else None
    decreases depth
  {
    if depth > 0 && |path| > 1 {
      var rest := path[1..];
      assert forall i :: 0 <= i < |rest| ==> rest[i] == path[i + 1];
      SlotsOnTheWay(w, rest, depth - 1, idx, v);
    }
  }

  // ----- raising -----

  /** A raised exception is delivered as it is, a raised string as a new exception; anything else fails a check. */
  lemma Raises(p: Program, callers: seq<Frame>, f: Frame, regs: Regs, w: World)
    requires Executes(p, f, RAISE)
    ensures var v := Operand(p, f, 1, regs);
      Step(p, Running(callers, f, regs, w)) ==
      if v.ExcV? then Deliver(p, callers + [f], Unwind(v.exc), regs, w)
      else if v.StrV? then
        Deliver(p, callers + [f], Unwind(p.env.newException(w, v.s).0), regs, p.env.newException(w, v.s).1)
      else Crashed
  {
    hide CodeOf, Deliver;
  }

  lemma RaisedValue(env: Env, v: Value, locals: Locals, w: World, m: Memory)
    ensures RaiseWith(env, v, locals, w) ==
      if v.ExcV? then Exc(v.exc, locals, w)
      else if v.StrV? then Exc(env.newException(w, v.s).0, locals, env.newException(w, v.s).1)
      else Abort
    ensures RaiseName(Source(env, map[]), v, m) ==
      if v.ExcV? then Throws(v.exc, m)
      else if v.StrV? then Throws(env.newException(m.w, v.s).0, Heap(m, env.newException(m.w, v.s).1))
      else Fails
  {}

  // ----- the bytes -----

  /** One byte of operand for numbers from -126 to 127, four for the others, the lowest first. */
  lemma BytesOfNumbers(lay: Layout, blk: bool, t: int)
    ensures Emit(lay, blk, Number(127), t, Empty).code == [0, t, 127]
    ensures Emit(lay, blk, Number(-126), t, Empty).code == [0, t, 130]
    ensures Emit(lay, blk, Number(128), t, Empty).code == [1, t, 128, 0, 0, 0]
    ensures Emit(lay, blk, Number(-127), t, Empty).code == [1, t, 129, 255, 255, 255]
    ensures Emit(lay, blk, Number(0x0403_0201), t, Empty).code == [1, t, 1, 2, 3, 4]
  {
    hide Emit, Size;
    NumberBytes(lay, blk, 127, t);
    NumberBytes(lay, blk, -126, t);
    NumberBytes(lay, blk, 128, t);
    NumberBytes(lay, blk, -127, t);
    NumberBytes(lay, blk, 0x0403_0201, t);
  }

  lemma NumberBytes(lay: Layout, blk: bool, v: int, t: int)
    ensures Emit(lay, blk, Number(v), t, Empty).code == NumberCode(v, t)
  {
    hide Size, NumberCode;
  }

  /** The bytes of the leaves, in numbers. */
  lemma BytesOfLeaves(lay: Layout, blk: bool, t: int, text: string, s: Scope)
    ensures Emit(lay, blk, Nil, t, Empty).code == [3, t]
    ensures Emit(lay, blk, True, t, Empty).code == [4, t]
    ensures Emit(lay, blk, False, t, Empty).code == [5, t]
    ensures Emit(lay, blk, LiteralString(text), t, Empty) == Buf([12, t, 0], [text], [])
    ensures Emit(lay, blk, Lambda(s), t, Empty) == Buf([13, t, 0], [], [Template(s, Block)])
  {}

  /** Of a name: a send to `self` where it has no place, else a copy from its register or a read of its slot. */
  lemma BytesOfNames(lay: Layout, blk: bool, id: nat, name: string, t: int)
    ensures Emit(lay, blk, Named(id, name), t, Empty) ==
      match lay.At(id)
      case None => Buf([14, t, 6, t, 0, t, 0], [name], [])
      case Some(Reg(r)) => if r == -1 then Buf([14, t], [], []) else Buf([2, t, r], [], [])
      case Some(Clo(d, i)) => Buf([21, t, d, i], [], [])
  {
    hide Size;
  }

  /** Of an assignment: the value, then a copy to the register or a write to the slot. */
  lemma BytesOfAssign(lay: Layout, blk: bool, id: nat, name: string, t: int)
    requires lay.At(id).Some?
    ensures Emit(lay, blk, Assign(id, name, Nil), t, Empty).code ==
      match lay.At(id).value
      case Reg(r) => [3, t, 2, r, t]
      case Clo(d, i) => [3, t, 22, d, i, t % 256]
  {
    hide Size;
    BytesOfLeaves(lay, blk, t, "", Scope(0, [], None, Nil));
  }

  /** Of the nodes that test a value, and of a loop. */
  lemma BytesOfTests(lay: Layout, blk: bool, t: int)
    ensures Emit(lay, blk, Not(Nil), t, Empty).code == [3, t, 26, t, t]
    ensures Emit(lay, blk, And(Nil, True), t, Empty).code == [3, t, 18, t, 2, 4, t]
    ensures Emit(lay, blk, Unless(Nil, True), t, Empty).code == [3, t, 17, t, 2, 4, t]
    ensures Emit(lay, blk, While(Nil, True), t, Empty).code == [3, t, 18, t, 4, 4, t, 16, 7]
  {
    hide Emit, Size;
    NotBytes(lay, blk, t);
    AndBytes(lay, blk, t);
    UnlessBytes(lay, blk, t);
    WhileBytes(lay, blk, t);
  }

  lemma NotBytes(lay: Layout, blk: bool, t: int)
    ensures Emit(lay, blk, Not(Nil), t, Empty).code == [3, t, 26, t, t]
  {}

  lemma AndBytes(lay: Layout, blk: bool, t: int)
    ensures Emit(lay, blk, And(Nil, True), t, Empty).code == [3, t, 18, t, 2, 4, t]
  {}

  lemma UnlessBytes(lay: Layout, blk: bool, t: int)
    ensures Emit(lay, blk, Unless(Nil, True), t, Empty).code == [3, t, 17, t, 2, 4, t]
  {}

  lemma WhileBytes(lay: Layout, blk: bool, t: int)
    ensures Emit(lay, blk, While(Nil, True), t, Empty).code == [3, t, 18, t, 4, 4, t, 16, 7]
  {}

  lemma BytesOfIf(lay: Layout, blk: bool, t: int)
    ensures Emit(lay, blk, IfCond(Nil, True, Some(False)), t, Empty).code == [3, t, 18, t, 4, 4, t, 15, 2, 5, t]
  {}

  lemma BytesOfCollections(lay: Layout, blk: bool, t: int)
    ensures Emit(lay, blk, Tuple(More(Nil, NoNodes)), t, Empty).code == [3, t, 27, t, t, 1]
    ensures Emit(lay, blk, List(More(Nil, NoNodes)), t, Empty).code == [3, t, 28, t, t, 1]
  {
    hide Size;
    assert EmitArgs(lay, blk, More(Nil, NoNodes), t, Empty) == Emit(lay, blk, Nil, t, Empty);
  }

  /** Of what leaves an activation or guards against it. */
  lemma BytesOfLeaving(lay: Layout, blk: bool, t: int)
    ensures Emit(lay, blk, Raise(Nil), t, Empty).code == [3, t, 25, t]
    ensures Emit(lay, blk, Return(Nil), t, Empty).code == [3, t, if blk then 29 else 11, t]
  {
    hide Size;
  }

  /**
   Of a scope: what moves its captured parameters, the body from the first register after its variables on, which for a
   method stand after its parameters, and the return of what the body left there; a file has none.
   */
  lemma BytesOfScope(lay: Layout, id: nat, args: seq<Argument>, self: Option<Argument>)
    ensures var s := Scope(id, args, self, Nil);
      var n := if id in lay.locals then lay.locals[id] else 0;
      RawCode(lay, Template(s, Method)).code ==
        EmitProlog(lay, s, Empty).code + [3, |args| + n, 11, |args| + n] &&
      RawCode(lay, Template(s, Block)).code == EmitProlog(lay, s, Empty).code + [3, n, 11, n] &&
      RawCode(lay, Template(s, Top)).code == EmitProlog(lay, s, Empty).code + [3, n]
  {
    hide EmitProlog, Size;
  }

  lemma BytesOfTry(lay: Layout, blk: bool, t: int)
    ensures Emit(lay, blk, Try(0, Nil, True, None, None), t, Empty).code == [19, t, 8, 3, t, 20, 15, 2, 4, t]
  {
    var e := Try(0, Nil, True, None, None);
    assert Size(lay, e) == 10;
    assert TryBody(lay, blk, e, t, Empty).code == [19, t, 8, 3, t, 20, 15, 2];
  }
}
