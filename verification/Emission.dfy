/**
 What `drive` emits, written without labels: every jump operand is computed from the size of the
 code it skips. The class in CodeGenerator.dfy emits the same bytes by back-patching.
 */
module Emission {
  import opened Ast

  /** A scope together with the way it is compiled; the entries of a code object's code pool. */
  datatype Template = Template(scope: Scope, kind: Kind)

  /** The parts of the code generator's state that end up in a code object. */
  datatype Buf = Buf(code: seq<int>, strs: seq<string>, codes: seq<Template>)

  ghost predicate Extends(b: Buf, c: Buf) {
    b.code <= c.code && b.strs <= c.strs && b.codes <= c.codes
  }

  /** Conversion of an int to the one-byte instruction type. */
  function Byte(x: int): int { x % 256 }

  function Push(b: Buf, xs: seq<int>): Buf { b.(code := b.code + xs) }

  function PushSend(b: Buf, t: int, name: string, recv: int, argc: int): Buf {
    Buf(b.code + [SEND, t, |b.strs|, recv, argc], b.strs + [name], b.codes)
  }

  function PushLoadString(b: Buf, t: int, s: string): Buf {
    Buf(b.code + [LOADS, t, |b.strs|], b.strs + [s], b.codes)
  }

  function PushLoadCode(b: Buf, t: int, c: Template): Buf {
    Buf(b.code + [LOADC, t, |b.codes|], b.strs, b.codes + [c])
  }

  /** Byte `k` of the 32-bit two's complement form of `v`. */
  function WordByte(v: int, k: nat): int
    requires k < 4
  {
    var u := v % 0x1_0000_0000;
    match k
    case 0 => u % 256
    case 1 => u / 256 % 256
    case 2 => u / 65536 % 256
    case 3 => u / 16777216 % 256
  }

  function NumberCode(v: int, t: int): seq<int> {
    if -127 < v < 128 then [MOVI8, t, Byte(v)]
    else [MOVI32, t, WordByte(v, 0), WordByte(v, 1), WordByte(v, 2), WordByte(v, 3)]
  }

  function GetCode(l: Loc, t: int): seq<int> {
    match l
    case Reg(r) => if r == -1 then [SELF, t] else [MOVR, t, r]
    case Clo(d, i) => [LVAR, t, d, i]
  }

  function SetCode(l: Loc, t: int): seq<int> {
    match l
    case Reg(r) => [MOVR, r, t]
    case Clo(d, i) => [SVAR, d, i, Byte(t)]
  }

  function GetSize(l: Option<Loc>): nat {
    match l
    case None => 0
    case Some(l) => |GetCode(l, 0)|
  }

  function SetSize(l: Option<Loc>): nat {
    match l
    case None => 0
    case Some(l) => |SetCode(l, 0)|
  }

  function PushGet(b: Buf, l: Option<Loc>, t: int): Buf {
    match l
    case None => b
    case Some(l) => Push(b, GetCode(l, t))
  }

  function PushSet(b: Buf, l: Option<Loc>, t: int): Buf {
    match l
    case None => b
    case Some(l) => Push(b, SetCode(l, t))
  }

  /** Number of bytes a node compiles to. */
  function Size(lay: Layout, e: Node): nat
  {
    match e
    case Seq(x, y) => Size(lay, x) + Size(lay, y)
    case Number(v) => if -127 < v < 128 then 3 else 6
    case Nil => 2
    case True => 2
    case False => 2
    case LiteralString(_) => 3
    case Self(id) => GetSize(lay.At(id))
    case Named(id, _) => if lay.At(id).None? then 7 else GetSize(lay.At(id))
    case Assign(id, _, v) => Size(lay, v) + SetSize(lay.At(id))
    case AssignOp(id, _, _, v) => GetSize(lay.At(id)) + Size(lay, v) + 5 + SetSize(lay.At(id))
    case Not(v) => Size(lay, v) + 3
    case And(x, y) => Size(lay, x) + 3 + Size(lay, y)
    case IfCond(c, x, None) => Size(lay, c) + 3 + Size(lay, x)
    case IfCond(c, x, Some(y)) => Size(lay, c) + 3 + Size(lay, x) + 2 + Size(lay, y)
    case Unless(c, x) => Size(lay, c) + 3 + Size(lay, x)
    case While(c, x) => Size(lay, c) + 3 + Size(lay, x) + 2
    case Tuple(args) => SizeArgs(lay, args) + 4
    case List(args) => SizeArgs(lay, args) + 4
    case Send(id, _, selfLess, recv, args) =>
      (if selfLess && lay.At(id).Some? then GetSize(lay.At(id)) else Size(lay, recv)) + SizeArgs(lay, args) + 5
    case Raise(v) => Size(lay, v) + 2
    case Try(id, body, handler, Some(_), Some(ty)) =>
      Size(lay, body) + 6 + (Size(lay, ty) + 11 + SetSize(lay.At(id)) + Size(lay, handler) + 4)
    case Try(_, body, handler, _, _) => Size(lay, body) + 6 + Size(lay, handler)
    case Return(v) => Size(lay, v) + 2
    case Lambda(_) => 3
    case Def(_, _) => 13
  }

  function SizeArgs(lay: Layout, es: Nodes): nat {
    match es
    case NoNodes => 0
    case More(e, rest) => Size(lay, e) + SizeArgs(lay, rest)
  }

  /** The code generator's state after `e.drive(S, t)`, in a method or file body or in a block (`blk`). */
  function Emit(lay: Layout, blk: bool, e: Node, t: int, b: Buf): (r: Buf)
    decreases e, 1
  {
    match e
    case Seq(x, y) => Emit(lay, blk, y, t, Emit(lay, blk, x, t, b))
    case Number(v) => Push(b, NumberCode(v, t))
    case Nil => Push(b, [MOVN, t])
    case True => Push(b, [MOVT, t])
    case False => Push(b, [MOVF, t])
    case LiteralString(s) => PushLoadString(b, t, s)
    case Self(id) => PushGet(b, lay.At(id), t)
    case Named(id, name) =>
      if lay.At(id).None? then PushSend(Push(b, [SELF, t]), t, name, t, 0) else PushGet(b, lay.At(id), t)
    case Assign(id, _, v) => PushSet(Emit(lay, blk, v, t, b), lay.At(id), t)
    case AssignOp(id, _, op, v) =>
      PushSet(PushSend(Emit(lay, blk, v, t + 1, PushGet(b, lay.At(id), t)), t, op, t, 1), lay.At(id), t)
    case Not(v) => Push(Emit(lay, blk, v, t, b), [NOT, t, t])
    case And(x, y) => Emit(lay, blk, y, t, Push(Emit(lay, blk, x, t, b), [JMPIF, t, Size(lay, y)]))
    case IfCond(c, x, None) => Emit(lay, blk, x, t, Push(Emit(lay, blk, c, t, b), [JMPIF, t, Size(lay, x)]))
    case IfCond(c, x, Some(y)) =>
      Emit(lay, blk, y, t,
           Push(Emit(lay, blk, x, t, Push(Emit(lay, blk, c, t, b), [JMPIF, t, Size(lay, x) + 2])),
                [JMPF, Size(lay, y)]))
    case Unless(c, x) => Emit(lay, blk, x, t, Push(Emit(lay, blk, c, t, b), [JMPIT, t, Size(lay, x)]))
    case While(c, x) =>
      Push(Emit(lay, blk, x, t, Push(Emit(lay, blk, c, t, b), [JMPIF, t, Size(lay, x) + 2])),
           [JMPB, Size(lay, c) + Size(lay, x) + 3])
    case Tuple(args) => Push(EmitArgs(lay, blk, args, t, b), [TUPLE, t, t, Count(args)])
    case List(args) => Push(EmitArgs(lay, blk, args, t, b), [LIST, t, t, Count(args)])
    case Send(id, name, selfLess, recv, args) =>
      if selfLess && lay.At(id).Some? then
        PushSend(EmitArgs(lay, blk, args, t + 1, PushGet(b, lay.At(id), t)), t, "apply", t, Count(args))
      else
        PushSend(EmitArgs(lay, blk, args, t + 1, Emit(lay, blk, recv, t, b)), t, name, t, Count(args))
    case Raise(v) => Push(Emit(lay, blk, v, t, b), [RAISE, t])
    case Try(id, body, handler, Some(_), Some(ty)) =>
      var h := TryTyped(lay, blk, e, t, TryBody(lay, blk, e, t, b));
      Push(Emit(lay, blk, handler, t, h), [JMPF, 2, RAISE, t])
    case Try(_, _, handler, _, _) => Emit(lay, blk, handler, t, TryBody(lay, blk, e, t, b))
    case Return(v) => Push(Emit(lay, blk, v, t, b), [if blk then LRET else RET, t])
    case Lambda(s) => PushLoadCode(b, t, Template(s, Block))
    case Def(name, s) =>
      PushSend(PushLoadCode(PushLoadString(Push(b, [SELF, t]), t + 1, name), t + 2, Template(s, Method)),
               t, "add_method", t, 2)
  }

  /** Code bytes of a try node that stand after its protected body and its jump over the handler. */
  function HandlerSize(lay: Layout, e: Node): nat
    requires e.Try?
  {
    Size(lay, e) - (Size(lay, e.body) + 6)
  }

  /** The protected body of a try node, up to the start of its handler. */
  function TryBody(lay: Layout, blk: bool, e: Node, t: int, b: Buf): (r: Buf)
    requires e.Try?
    decreases e, 0
  {
    Push(Emit(lay, blk, e.body, t, Push(b, [REGE, t, |b.code| + Size(lay, e.body) + 6])),
         [POPE, JMPF, HandlerSize(lay, e)])
  }

  /** The part of a typed handler that tests the exception and binds the variable. */
  function TryTyped(lay: Layout, blk: bool, e: Node, t: int, b: Buf): (r: Buf)
    requires e.Try? && e.excName.Some? && e.excType.Some?
    decreases e, 0
  {
    PushSet(
      Push(PushSend(Push(Emit(lay, blk, e.excType.value, t + 1, b), [MOVR, t + 2, t]), t + 1, "===", t + 1, 1),
           [JMPIF, t + 1, SetSize(lay.At(e.id)) + Size(lay, e.handler) + 2]),
      lay.At(e.id), t)
  }

  function EmitArgs(lay: Layout, blk: bool, es: Nodes, t: int, b: Buf): (r: Buf)
    decreases es, 1
  {
    match es
    case NoNodes => b
    case More(e, rest) => EmitArgs(lay, blk, rest, t + 1, Emit(lay, blk, e, t, b))
  }

  // ----- how the parts of a node's code lie in a code object that contains it -----

  /** Whether a send uses a variable as its receiver: the apply half of the Markov rule. */
  predicate Markov(lay: Layout, e: Node)
    requires e.Send?
  {
    e.selfLess && lay.At(e.id).Some?
  }

  lemma IfElseShape(lay: Layout, blk: bool, e: Node, t: int, b: Buf, c: Buf)
    requires e.IfCond? && e.ebody.Some? && Extends(Emit(lay, blk, e, t, b), c)
    ensures Size(lay, e) == Size(lay, e.cond) + 3 + Size(lay, e.body) + 2 + Size(lay, e.ebody.value)
    ensures var b1 := Emit(lay, blk, e.cond, t, b);
      var b2 := Push(b1, [JMPIF, t, Size(lay, e.body) + 2]);
      var b3 := Emit(lay, blk, e.body, t, b2);
      var b4 := Push(b3, [JMPF, Size(lay, e.ebody.value)]);
      Extends(b1, c) && Extends(b2, c) && Extends(b3, c) && Extends(b4, c) &&
      Extends(Emit(lay, blk, e.ebody.value, t, b4), c) &&
      |b1.code| == |b.code| + Size(lay, e.cond) && |b2.code| == |b1.code| + 3 &&
      |b4.code| == |b2.code| + Size(lay, e.body) + 2
  {
    var b2 := Push(Emit(lay, blk, e.cond, t, b), [JMPIF, t, Size(lay, e.body) + 2]);
    var b4 := Push(Emit(lay, blk, e.body, t, b2), [JMPF, Size(lay, e.ebody.value)]);
    EmitGrows(lay, blk, e.ebody.value, t, b4);
    Extended(b4, Emit(lay, blk, e.ebody.value, t, b4), c);
    EmitGrows(lay, blk, e.body, t, b2);
    Extended(b2, b4, c);
    EmitGrows(lay, blk, e.cond, t, b);
  }

  lemma WhileShape(lay: Layout, blk: bool, e: Node, t: int, b: Buf, c: Buf)
    requires e.While? && Extends(Emit(lay, blk, e, t, b), c)
    ensures Size(lay, e) == Size(lay, e.cond) + 3 + Size(lay, e.body) + 2
    ensures var b1 := Emit(lay, blk, e.cond, t, b);
      var b2 := Push(b1, [JMPIF, t, Size(lay, e.body) + 2]);
      var b3 := Emit(lay, blk, e.body, t, b2);
      Extends(b1, c) && Extends(b2, c) && Extends(b3, c) &&
      Extends(Push(b3, [JMPB, Size(lay, e.cond) + Size(lay, e.body) + 3]), c) &&
      |b1.code| == |b.code| + Size(lay, e.cond) && |b2.code| == |b1.code| + 3 &&
      |b3.code| == |b2.code| + Size(lay, e.body)
  {
    EmitGrows(lay, blk, e.cond, t, b);
    EmitGrows(lay, blk, e.body, t, Push(Emit(lay, blk, e.cond, t, b), [JMPIF, t, Size(lay, e.body) + 2]));
  }

  lemma ArgsShape(lay: Layout, blk: bool, es: Nodes, t: int, b: Buf, c: Buf)
    requires es.More? && Extends(EmitArgs(lay, blk, es, t, b), c)
    ensures SizeArgs(lay, es) == Size(lay, es.head) + SizeArgs(lay, es.rest)
    ensures var b1 := Emit(lay, blk, es.head, t, b);
      Extends(b1, c) && Extends(EmitArgs(lay, blk, es.rest, t + 1, b1), c) &&
      |b1.code| == |b.code| + Size(lay, es.head)
  {
    hide Emit, Size;
    EmitGrows(lay, blk, es.head, t, b);
    EmitArgsGrows(lay, blk, es.rest, t + 1, Emit(lay, blk, es.head, t, b));
  }

  lemma SendShape(lay: Layout, blk: bool, e: Node, t: int, b: Buf, c: Buf)
    requires e.Send? && Extends(Emit(lay, blk, e, t, b), c)
    ensures var m := Markov(lay, e);
      var b1 := if m then PushGet(b, lay.At(e.id), t) else Emit(lay, blk, e.recv, t, b);
      var size1 := if m then GetSize(lay.At(e.id)) else Size(lay, e.recv);
      Extends(b1, c) && Extends(EmitArgs(lay, blk, e.args, t + 1, b1), c) &&
      Extends(PushSend(EmitArgs(lay, blk, e.args, t + 1, b1), t, if m then "apply" else e.name, t, Count(e.args)), c) &&
      |b1.code| == |b.code| + size1 && Size(lay, e) == size1 + SizeArgs(lay, e.args) + 5
  {
    var b1 := if Markov(lay, e) then PushGet(b, lay.At(e.id), t) else Emit(lay, blk, e.recv, t, b);
    if !Markov(lay, e) { EmitGrows(lay, blk, e.recv, t, b); }
    EmitArgsGrows(lay, blk, e.args, t + 1, b1);
  }

  lemma AssignOpShape(lay: Layout, blk: bool, e: Node, t: int, b: Buf, c: Buf)
    requires e.AssignOp? && Extends(Emit(lay, blk, e, t, b), c)
    ensures var l := lay.At(e.id);
      var b1 := PushGet(b, l, t);
      var b2 := Emit(lay, blk, e.value, t + 1, b1);
      var b3 := PushSend(b2, t, e.op, t, 1);
      Extends(b1, c) && Extends(b2, c) && Extends(b3, c) && Extends(PushSet(b3, l, t), c) &&
      |b1.code| == |b.code| + GetSize(l) && |b2.code| == |b1.code| + Size(lay, e.value) &&
      |b3.code| == |b2.code| + 5 && Size(lay, e) == GetSize(l) + Size(lay, e.value) + 5 + SetSize(l)
  {
    EmitGrows(lay, blk, e.value, t + 1, PushGet(b, lay.At(e.id), t));
  }

  lemma TryShape(lay: Layout, blk: bool, e: Node, t: int, b: Buf, c: Buf)
    requires e.Try? && Extends(Emit(lay, blk, e, t, b), c)
    ensures HandlerSize(lay, e) >= 0
    ensures var h := |b.code| + Size(lay, e.body) + 6;
      var b1 := Push(b, [REGE, t, h]);
      var b2 := Emit(lay, blk, e.body, t, b1);
      Extends(b1, c) && Extends(b2, c) && Extends(Push(b2, [POPE, JMPF, HandlerSize(lay, e)]), c) &&
      |b2.code| == |b.code| + 3 + Size(lay, e.body) && |TryBody(lay, blk, e, t, b).code| == h &&
      Extends(TryBody(lay, blk, e, t, b), c) && Size(lay, e) == Size(lay, e.body) + 6 + HandlerSize(lay, e)
  {
    var b1 := TryBody(lay, blk, e, t, b);
    TryBodyGrows(lay, blk, e, t, b);
    EmitGrows(lay, blk, e.body, t, Push(b, [REGE, t, |b.code| + Size(lay, e.body) + 6]));
    if e.excName.Some? && e.excType.Some? {
      var b2 := TryTyped(lay, blk, e, t, b1);
      TryTypedGrows(lay, blk, e, t, b1);
      EmitGrows(lay, blk, e.handler, t, b2);
      Extended(b1, b2, c);
    } else {
      EmitGrows(lay, blk, e.handler, t, b1);
      Extended(b1, Emit(lay, blk, e.handler, t, b1), c);
    }
    Extended(Emit(lay, blk, e.body, t, Push(b, [REGE, t, |b.code| + Size(lay, e.body) + 6])), b1, c);
  }

  lemma TypedShape(lay: Layout, blk: bool, e: Node, t: int, b: Buf, c: Buf)
    requires e.Try? && e.excName.Some? && e.excType.Some?
    requires Extends(Emit(lay, blk, e, t, b), c)
    ensures HandlerSize(lay, e) ==
            Size(lay, e.excType.value) + 11 + SetSize(lay.At(e.id)) + Size(lay, e.handler) + 4
    ensures var l := lay.At(e.id);
      var b0 := TryBody(lay, blk, e, t, b);
      var b1 := Emit(lay, blk, e.excType.value, t + 1, b0);
      var b2 := Push(b1, [MOVR, t + 2, t]);
      var b3 := PushSend(b2, t + 1, "===", t + 1, 1);
      var b4 := Push(b3, [JMPIF, t + 1, SetSize(l) + Size(lay, e.handler) + 2]);
      var b5 := PushSet(b4, l, t);
      var b6 := Emit(lay, blk, e.handler, t, b5);
      Extends(b1, c) && Extends(b2, c) && Extends(b3, c) && Extends(b4, c) && Extends(b5, c) && Extends(b6, c) &&
      Extends(Push(b6, [JMPF, 2, RAISE, t]), c) &&
      |b1.code| == |b0.code| + Size(lay, e.excType.value) && |b3.code| == |b1.code| + 8 &&
      |b5.code| == |b3.code| + 3 + SetSize(l) && |b6.code| == |b5.code| + Size(lay, e.handler)
  {
    var l := lay.At(e.id);
    var b0 := TryBody(lay, blk, e, t, b);
    var b5 := TryTyped(lay, blk, e, t, b0);
    EmitGrows(lay, blk, e.excType.value, t + 1, b0);
    EmitGrows(lay, blk, e.handler, t, b5);
    Extended(b5, Emit(lay, blk, e.handler, t, b5), c);
    TypedChain(lay, blk, e, t, b0, c);
  }

  lemma TypedChain(lay: Layout, blk: bool, e: Node, t: int, b0: Buf, c: Buf)
    requires e.Try? && e.excName.Some? && e.excType.Some? && Extends(TryTyped(lay, blk, e, t, b0), c)
    ensures var b1 := Emit(lay, blk, e.excType.value, t + 1, b0);
      var b2 := Push(b1, [MOVR, t + 2, t]);
      var b3 := PushSend(b2, t + 1, "===", t + 1, 1);
      Extends(b1, c) && Extends(b2, c) && Extends(b3, c) &&
      Extends(Push(b3, [JMPIF, t + 1, SetSize(lay.At(e.id)) + Size(lay, e.handler) + 2]), c)
  {
    hide Emit, Size;
  }

  /** `Argument::drive`: a captured argument is copied from its register to its closure slot. */
  function EmitArgument(lay: Layout, a: Argument, position: int, b: Buf): (r: Buf)
  {
    match lay.At(a.id)
    case Some(Clo(d, i)) => Push(b, SetCode(Clo(d, i), position))
    case _ => b
  }

  function EmitArguments(lay: Layout, args: seq<Argument>, i: nat, b: Buf): (r: Buf)
    requires i <= |args|
    ensures Extends(b, r)
    decreases |args| - i
  {
    if i == |args| then b else EmitArguments(lay, args, i + 1, EmitArgument(lay, args[i], i, b))
  }

  function EmitProlog(lay: Layout, s: Scope, b: Buf): (r: Buf)
  {
    EmitArguments(lay, s.args, 0, if s.self.Some? then EmitArgument(lay, s.self.value, -1, b) else b)
  }

  /** `c` continues `b` with `n` bytes of code. */
  ghost predicate Grows(b: Buf, n: int, c: Buf) {
    Extends(b, c) && |c.code| == |b.code| + n
  }

  lemma Extended(a: Buf, b: Buf, c: Buf)
    requires Extends(a, b) && Extends(b, c)
    ensures Extends(a, c)
  {}

  lemma GrowsOn(a: Buf, m: int, b: Buf, n: int, c: Buf)
    requires Grows(a, m, b) && Grows(b, n, c)
    ensures Grows(a, m + n, c)
  {}

  /** Emission only appends, and it appends `Size` bytes. */
  lemma {:induction false} EmitGrows(lay: Layout, blk: bool, e: Node, t: int, b: Buf)
    ensures Grows(b, Size(lay, e), Emit(lay, blk, e, t, b))
    decreases e, 1
  {
    hide Emit, Size, Grows;
    match e
    case Seq(_, _) => EmitGrowsSeq(lay, blk, e, t, b);
    case Assign(_, _, _) => EmitGrowsUnary(lay, blk, e, t, b);
    case AssignOp(_, _, _, _) => EmitGrowsOperator(lay, blk, e, t, b);
    case Not(_) => EmitGrowsUnary(lay, blk, e, t, b);
    case And(_, _) => EmitGrowsIf(lay, blk, e, t, b);
    case IfCond(_, _, None) => EmitGrowsIf(lay, blk, e, t, b);
    case IfCond(_, _, Some(_)) => EmitGrowsElse(lay, blk, e, t, b);
    case Unless(_, _) => EmitGrowsIf(lay, blk, e, t, b);
    case While(_, _) => EmitGrowsWhile(lay, blk, e, t, b);
    case Tuple(_) => EmitGrowsCollection(lay, blk, e, t, b);
    case List(_) => EmitGrowsCollection(lay, blk, e, t, b);
    case Send(_, _, _, _, _) => EmitGrowsSend(lay, blk, e, t, b);
    case Raise(_) => EmitGrowsUnary(lay, blk, e, t, b);
    case Return(_) => EmitGrowsUnary(lay, blk, e, t, b);
    case Try(_, _, _, _, _) => EmitGrowsTry(lay, blk, e, t, b);
    case _ => EmitGrowsLeaf(lay, blk, e, t, b);
  }

  lemma {:induction false} EmitGrowsSeq(lay: Layout, blk: bool, e: Node, t: int, b: Buf)
    requires e.Seq?
    ensures Grows(b, Size(lay, e), Emit(lay, blk, e, t, b))
    decreases e, 0
  {
    EmitGrows(lay, blk, e.first, t, b);
    EmitGrows(lay, blk, e.second, t, Emit(lay, blk, e.first, t, b));
  }

  lemma {:induction false} EmitGrowsOperator(lay: Layout, blk: bool, e: Node, t: int, b: Buf)
    requires e.AssignOp?
    ensures Grows(b, Size(lay, e), Emit(lay, blk, e, t, b))
    decreases e, 0
  {
    EmitGrows(lay, blk, e.value, t + 1, PushGet(b, lay.At(e.id), t));
  }

  lemma {:induction false} EmitGrowsCollection(lay: Layout, blk: bool, e: Node, t: int, b: Buf)
    requires e.Tuple? || e.List?
    ensures Grows(b, Size(lay, e), Emit(lay, blk, e, t, b))
    decreases e, 0
  {
    EmitArgsGrows(lay, blk, e.args, t, b);
  }

  lemma EmitGrowsLeaf(lay: Layout, blk: bool, e: Node, t: int, b: Buf)
    requires e.Number? || e.Nil? || e.True? || e.False? || e.LiteralString? || e.Self? || e.Named? || e.Lambda? ||
             e.Def?
    ensures Grows(b, Size(lay, e), Emit(lay, blk, e, t, b))
  {}

  lemma {:induction false} EmitGrowsUnary(lay: Layout, blk: bool, e: Node, t: int, b: Buf)
    requires e.Assign? || e.Not? || e.Raise? || e.Return?
    ensures Grows(b, Size(lay, e), Emit(lay, blk, e, t, b))
    decreases e, 0
  {
    EmitGrows(lay, blk, e.value, t, b);
  }

  lemma {:induction false} EmitGrowsIf(lay: Layout, blk: bool, e: Node, t: int, b: Buf)
    requires e.And? || (e.IfCond? && e.ebody.None?) || e.Unless?
    ensures Grows(b, Size(lay, e), Emit(lay, blk, e, t, b))
    decreases e, 0
  {
    var (c, op, x) := match e
      case And(l, r) => (l, JMPIF, r)
      case IfCond(c, x, _) => (c, JMPIF, x)
      case Unless(c, x) => (c, JMPIT, x);
    EmitGrows(lay, blk, c, t, b);
    EmitGrows(lay, blk, x, t, Push(Emit(lay, blk, c, t, b), [op, t, Size(lay, x)]));
  }

  lemma {:induction false} EmitGrowsElse(lay: Layout, blk: bool, e: Node, t: int, b: Buf)
    requires e.IfCond? && e.ebody.Some?
    ensures Grows(b, Size(lay, e), Emit(lay, blk, e, t, b))
    decreases e, 0
  {
    var y := e.ebody.value;
    var b1 := Push(Emit(lay, blk, e.cond, t, b), [JMPIF, t, Size(lay, e.body) + 2]);
    var b2 := Push(Emit(lay, blk, e.body, t, b1), [JMPF, Size(lay, y)]);
    EmitGrows(lay, blk, e.cond, t, b);
    EmitGrows(lay, blk, e.body, t, b1);
    GrowsOn(b, Size(lay, e.cond) + 3, b1, Size(lay, e.body) + 2, b2);
    EmitGrows(lay, blk, y, t, b2);
  }

  lemma {:induction false} EmitGrowsWhile(lay: Layout, blk: bool, e: Node, t: int, b: Buf)
    requires e.While?
    ensures Grows(b, Size(lay, e), Emit(lay, blk, e, t, b))
    decreases e, 0
  {
    EmitGrows(lay, blk, e.cond, t, b);
    EmitGrows(lay, blk, e.body, t, Push(Emit(lay, blk, e.cond, t, b), [JMPIF, t, Size(lay, e.body) + 2]));
  }

  lemma {:induction false} EmitGrowsSend(lay: Layout, blk: bool, e: Node, t: int, b: Buf)
    requires e.Send?
    ensures Grows(b, Size(lay, e), Emit(lay, blk, e, t, b))
    decreases e, 0
  {
    if e.selfLess && lay.At(e.id).Some? {
      EmitArgsGrows(lay, blk, e.args, t + 1, PushGet(b, lay.At(e.id), t));
    } else {
      EmitGrows(lay, blk, e.recv, t, b);
      EmitArgsGrows(lay, blk, e.args, t + 1, Emit(lay, blk, e.recv, t, b));
    }
  }

  lemma {:induction false} TryBodyGrows(lay: Layout, blk: bool, e: Node, t: int, b: Buf)
    requires e.Try?
    ensures Grows(b, Size(lay, e.body) + 6, TryBody(lay, blk, e, t, b))
    decreases e, 0, 0
  {
    EmitGrows(lay, blk, e.body, t, Push(b, [REGE, t, |b.code| + Size(lay, e.body) + 6]));
  }

  lemma {:induction false} TryTypedGrows(lay: Layout, blk: bool, e: Node, t: int, b: Buf)
    requires e.Try? && e.excName.Some? && e.excType.Some?
    ensures Grows(b, Size(lay, e.excType.value) + 11 + SetSize(lay.At(e.id)), TryTyped(lay, blk, e, t, b))
    decreases e, 0, 0
  {
    EmitGrows(lay, blk, e.excType.value, t + 1, b);
  }

  lemma {:induction false} EmitGrowsTry(lay: Layout, blk: bool, e: Node, t: int, b: Buf)
    requires e.Try?
    ensures Grows(b, Size(lay, e), Emit(lay, blk, e, t, b))
    decreases e, 0, 1
  {
    var b1 := TryBody(lay, blk, e, t, b);
    TryBodyGrows(lay, blk, e, t, b);
    if e.excName.Some? && e.excType.Some? {
      var b2 := TryTyped(lay, blk, e, t, b1);
      TryTypedGrows(lay, blk, e, t, b1);
      GrowsOn(b, Size(lay, e.body) + 6, b1, Size(lay, e.excType.value) + 11 + SetSize(lay.At(e.id)), b2);
      EmitGrows(lay, blk, e.handler, t, b2);
    } else {
      EmitGrows(lay, blk, e.handler, t, b1);
    }
  }

  lemma {:induction false} EmitArgsGrows(lay: Layout, blk: bool, es: Nodes, t: int, b: Buf)
    ensures Grows(b, SizeArgs(lay, es), EmitArgs(lay, blk, es, t, b))
    decreases es, 1
  {
    match es
    case NoNodes =>
    case More(e, rest) =>
      EmitGrows(lay, blk, e, t, b);
      EmitArgsGrows(lay, blk, rest, t + 1, Emit(lay, blk, e, t, b));
  }

  const Empty := Buf([], [], [])

  /** The code object of a scope before its instructions are narrowed to bytes. */
  function RawCode(lay: Layout, c: Template): (r: Buf) {
    var t := TempBase(lay, c.scope, c.kind);
    var b := Emit(lay, c.kind == Block, c.scope.body, t, EmitProlog(lay, c.scope, Empty));
    if c.kind == Top then b else Push(b, [RET, t])
  }

  function Narrow(xs: seq<int>): (r: seq<int>)
    ensures |r| == |xs| && forall i :: 0 <= i < |xs| ==> r[i] == Byte(xs[i])
  {
    seq(|xs|, i requires 0 <= i < |xs| => Byte(xs[i]))
  }

  /** The code object of a scope: `Instruction` is one unsigned byte. */
  function CodeOf(lay: Layout, c: Template): Buf {
    var raw := RawCode(lay, c);
    raw.(code := Narrow(raw.code))
  }

  /** Every opcode and operand of the code object fits one byte. */
  ghost predicate FitsBytes(lay: Layout, c: Template) {
    forall i :: 0 <= i < |RawCode(lay, c).code| ==> 0 <= RawCode(lay, c).code[i] < 256
  }

  /** Narrowing loses nothing exactly when every opcode and operand fits one byte. */
  lemma FitsIsExact(lay: Layout, c: Template)
    ensures CodeOf(lay, c) == RawCode(lay, c) <==> FitsBytes(lay, c)
  {
    var raw := RawCode(lay, c).code;
    if FitsBytes(lay, c) {
      assert forall i :: 0 <= i < |raw| ==> Byte(raw[i]) == raw[i];
      assert Narrow(raw) == raw;
    } else {
      var i :| 0 <= i < |raw| && !(0 <= raw[i] < 256);
      assert Narrow(raw)[i] != raw[i];
    }
  }
}
