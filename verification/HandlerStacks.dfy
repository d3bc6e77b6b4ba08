/**
 Handler stack discipline: the handler stack of an activation is, at every instruction it reaches
 in any run, the list of the try nodes whose protected body the instruction stands in.
 */
module HandlerStacks {
  import opened Ast
  import opened Emission
  import opened Machine
  import opened RuntimeInvariant

  /** `insn_len`: bytes of an instruction; 0 for a byte that is no opcode of the emitted code. */
  function InsnLen(op: int): nat {
    if op == POPE then 1
    else if op == MOVN || op == MOVT || op == MOVF || op == RET || op == LRET || op == SELF || op == JMPF ||
            op == JMPB || op == RAISE then 2
    else if op == MOVR || op == MOVI8 || op == LOADC || op == LOADS || op == JMPIF || op == JMPIT || op == REGE ||
            op == NOT then 3
    else if op == LVAR || op == SVAR || op == TUPLE || op == LIST then 4
    else if op == SEND then 5
    else if op == MOVI32 then 6
    else 0
  }

  /** Instructions after which the next one in the code is run, with the same handlers. */
  predicate Straight(op: int) {
    InsnLen(op) > 0 && op != RET && op != LRET && op != RAISE && op != JMPF && op != JMPB && op != JMPIF &&
    op != JMPIT && op != REGE && op != POPE
  }

  type Mark = Option<seq<Handler>>

  function Here(q: int, pos: int, es: seq<Handler>): Mark { if q == pos then Some(es) else None }

  /**
   The try nodes around the instruction at `q`, for `q` in the code of node `e` that starts at
   `pos` inside the protected bodies `es`; none if no instruction starts at `q`.
   */
  function MarkAt(lay: Layout, e: Node, t: int, pos: int, es: seq<Handler>, q: int): Mark
    decreases e, 1
  {
    match e
    case Seq(x, y) =>
      var m := pos + Size(lay, x);
      if q < m then MarkAt(lay, x, t, pos, es, q) else MarkAt(lay, y, t, m, es, q)
    case Named(id, _) => if lay.At(id).None? && q == pos + 2 then Some(es) else Here(q, pos, es)
    case Assign(id, _, v) =>
      var m := pos + Size(lay, v);
      if q < m then MarkAt(lay, v, t, pos, es, q) else Here(q, m, es)
    case AssignOp(id, _, _, v) =>
      var m := pos + GetSize(lay.At(id));
      var n := m + Size(lay, v);
      if q < m then Here(q, pos, es)
      else if q < n then MarkAt(lay, v, t + 1, m, es, q)
      else if q == n then Some(es)
      else Here(q, n + 5, es)
    case Not(v) => MarkThen(lay, v, t, pos, es, q)
    case Raise(v) => MarkThen(lay, v, t, pos, es, q)
    case Return(v) => MarkThen(lay, v, t, pos, es, q)
    case And(x, y) => MarkGuarded(lay, e, x, y, t, pos, es, q)
    case IfCond(x, y, None) => MarkGuarded(lay, e, x, y, t, pos, es, q)
    case Unless(x, y) => MarkGuarded(lay, e, x, y, t, pos, es, q)
    case IfCond(x, y, Some(z)) =>
      var m := pos + Size(lay, x) + 3 + Size(lay, y);
      if q < m then MarkGuarded(lay, e, x, y, t, pos, es, q)
      else if q < m + 2 then Here(q, m, es)
      else MarkAt(lay, z, t, m + 2, es, q)
    case While(x, y) =>
      var m := pos + Size(lay, x) + 3 + Size(lay, y);
      if q < m then MarkGuarded(lay, e, x, y, t, pos, es, q) else Here(q, m, es)
    case Tuple(args) =>
      if q < pos + SizeArgs(lay, args) then MarkArgs(lay, args, t, pos, es, q)
      else Here(q, pos + SizeArgs(lay, args), es)
    case List(args) =>
      if q < pos + SizeArgs(lay, args) then MarkArgs(lay, args, t, pos, es, q)
      else Here(q, pos + SizeArgs(lay, args), es)
    case Send(id, _, selfLess, recv, args) =>
      var local := selfLess && lay.At(id).Some?;
      var m := pos + if local then GetSize(lay.At(id)) else Size(lay, recv);
      var n := m + SizeArgs(lay, args);
      if q < m then (if local then Here(q, pos, es) else MarkAt(lay, recv, t, pos, es, q))
      else if q < n then MarkArgs(lay, args, t + 1, m, es, q)
      else Here(q, n, es)
    case Try(id, body, handler, name, ty) =>
      var h := pos + Size(lay, body) + 6;
      var inside := es + [Handler(t, h)];
      if q < pos + 3 then Here(q, pos, es)
      else if q < h - 3 then MarkAt(lay, body, t, pos + 3, inside, q)
      else if q == h - 3 then Some(inside)
      else if q < h then Here(q, h - 2, es)
      else if name.None? || ty.None? then MarkAt(lay, handler, t, h, es, q)
      else
        var m := h + Size(lay, ty.value);
        var n := m + 11 + SetSize(lay.At(id));
        var l := n + Size(lay, handler);
        if q < m then MarkAt(lay, ty.value, t + 1, h, es, q)
        else if q < n then (if q == m || q == m + 3 || q == m + 8 then Some(es) else Here(q, m + 11, es))
        else if q < l then MarkAt(lay, handler, t, n, es, q)
        else if q == l then Some(es)
        else Here(q, l + 2, es)
    case Def(_, _) => if q == pos + 2 || q == pos + 5 || q == pos + 8 then Some(es) else Here(q, pos, es)
    case _ => Here(q, pos, es)
  }

  /** A node followed by one instruction. */
  function MarkThen(lay: Layout, v: Node, t: int, pos: int, es: seq<Handler>, q: int): Mark
    decreases v, 2
  {
    var m := pos + Size(lay, v);
    if q < m then MarkAt(lay, v, t, pos, es, q) else Here(q, m, es)
  }

  /** Two nodes with a conditional jump between them. */
  function MarkGuarded(lay: Layout, e: Node, x: Node, y: Node, t: int, pos: int, es: seq<Handler>, q: int): Mark
    requires x < e && y < e
    decreases e, 0
  {
    var m := pos + Size(lay, x);
    if q < m then MarkAt(lay, x, t, pos, es, q)
    else if q < m + 3 then Here(q, m, es)
    else MarkAt(lay, y, t, m + 3, es, q)
  }

  function MarkArgs(lay: Layout, args: Nodes, t: int, pos: int, es: seq<Handler>, q: int): Mark
    decreases args, 1
  {
    match args
    case NoNodes => None
    case More(e, rest) =>
      var m := pos + Size(lay, e);
      if q < m then MarkAt(lay, e, t, pos, es, q) else MarkArgs(lay, rest, t + 1, m, es, q)
  }

  /** The try nodes around the instruction at `q` of a whole code object. */
  function CodeMark(lay: Layout, c: Template, q: int): Mark {
    var start := |EmitProlog(lay, c.scope, Empty).code|;
    var end := start + Size(lay, c.scope.body);
    if q < start then (if q >= 0 && q % 4 == 0 then Some([]) else None)
    else if q < end then MarkAt(lay, c.scope.body, TempBase(lay, c.scope, c.kind), start, [], q)
    else Here(q, end, [])
  }

  /** Each of the handlers `es` stands outside its own try, inside those before it. */
  ghost predicate Valid(lay: Layout, c: Template, es: seq<Handler>) {
    forall i :: 0 <= i < |es| ==> CodeMark(lay, c, es[i].ip) == Some(es[..i])
  }

  /** Wherever the instruction at `q` goes, the code expects the handlers it leaves there. */
  ghost predicate FlowsAt(lay: Layout, c: Template, q: int) {
    var code := CodeOf(lay, c).code;
    var m := CodeMark(lay, c, q);
    m.Some? && 0 <= q < |code| && Valid(lay, c, m.value) &&
    var op, a, b := code[q], At(code, q + 1), At(code, q + 2);
    InsnLen(op) > 0 &&
    (Straight(op) ==> CodeMark(lay, c, q + InsnLen(op)) == m) &&
    (op == JMPF ==> CodeMark(lay, c, q + 2 + a) == m) &&
    (op == JMPB ==> CodeMark(lay, c, q - a) == m) &&
    (op == JMPIF || op == JMPIT ==> CodeMark(lay, c, q + 3) == m && CodeMark(lay, c, q + 3 + b) == m) &&
    (op == REGE ==> CodeMark(lay, c, q + 3) == Some(m.value + [Handler(a, b)])) &&
    (op == POPE ==> m.value != [] && CodeMark(lay, c, q + 1) == Some(m.value[..|m.value| - 1]))
  }

  ghost predicate Flow(lay: Layout, c: Template, lo: int, hi: int) {
    forall q :: lo <= q < hi && CodeMark(lay, c, q).Some? ==> FlowsAt(lay, c, q)
  }

  /** The code object's marks are those of node `e` on its stretch of code. */
  ghost predicate Region(lay: Layout, c: Template, e: Node, t: int, pos: int, es: seq<Handler>) {
    forall q :: pos <= q < pos + Size(lay, e) ==> CodeMark(lay, c, q) == MarkAt(lay, e, t, pos, es, q)
  }

  ghost predicate RegionArgs(lay: Layout, c: Template, args: Nodes, t: int, pos: int, es: seq<Handler>) {
    forall q :: pos <= q < pos + SizeArgs(lay, args) ==> CodeMark(lay, c, q) == MarkArgs(lay, args, t, pos, es, q)
  }

  lemma FlowJoins(lay: Layout, c: Template, lo: int, mid: int, hi: int)
    requires Flow(lay, c, lo, mid) && Flow(lay, c, mid, hi)
    ensures Flow(lay, c, lo, hi)
  {
    hide FlowsAt, CodeMark;
  }

  lemma FetchAt(lay: Layout, c: Template, b: Buf, xs: seq<int>)
    requires Extends(Push(b, xs), CodeOf(lay, c))
    ensures |b.code| + |xs| <= |CodeOf(lay, c).code|
    ensures forall i :: 0 <= i < |xs| ==> CodeOf(lay, c).code[|b.code| + i] == xs[i]
  {
    hide CodeOf;
    assert forall i :: 0 <= i < |xs| ==> (b.code + xs)[|b.code| + i] == xs[i];
  }

  /** One straight instruction. */
  lemma StraightFlows(lay: Layout, c: Template, b: Buf, xs: seq<int>, es: seq<Handler>)
    requires |xs| > 0 && Straight(xs[0]) && InsnLen(xs[0]) == |xs| && Extends(Push(b, xs), CodeOf(lay, c))
    requires forall q :: |b.code| <= q < |b.code| + |xs| ==> CodeMark(lay, c, q) == Here(q, |b.code|, es)
    requires CodeMark(lay, c, |b.code| + |xs|) == Some(es) && Valid(lay, c, es)
    ensures CodeMark(lay, c, |b.code|) == Some(es) && Flow(lay, c, |b.code|, |b.code| + |xs|)
  {
    hide CodeMark, CodeOf, Valid, Extends, Push;
    FetchAt(lay, c, b, xs);
  }

  /** One jump, or one instruction that leaves the activation or looks for a handler. */
  lemma OtherFlows(lay: Layout, c: Template, b: Buf, xs: seq<int>, es: seq<Handler>)
    requires |xs| > 0 && InsnLen(xs[0]) == |xs| && Extends(Push(b, xs), CodeOf(lay, c))
    requires forall q :: |b.code| <= q < |b.code| + |xs| ==> CodeMark(lay, c, q) == Here(q, |b.code|, es)
    requires Valid(lay, c, es)
    requires xs[0] == RET || xs[0] == LRET || xs[0] == RAISE ||
      (xs[0] == JMPF && CodeMark(lay, c, |b.code| + 2 + xs[1]) == Some(es)) ||
      (xs[0] == JMPB && CodeMark(lay, c, |b.code| - xs[1]) == Some(es)) ||
      ((xs[0] == JMPIF || xs[0] == JMPIT) && CodeMark(lay, c, |b.code| + 3) == Some(es) &&
       CodeMark(lay, c, |b.code| + 3 + xs[2]) == Some(es)) ||
      (xs[0] == REGE && CodeMark(lay, c, |b.code| + 3) == Some(es + [Handler(xs[1], xs[2])])) ||
      (xs[0] == POPE && es != [] && CodeMark(lay, c, |b.code| + 1) == Some(es[..|es| - 1]))
    ensures CodeMark(lay, c, |b.code|) == Some(es) && Flow(lay, c, |b.code|, |b.code| + |xs|)
  {
    hide CodeMark, CodeOf, Valid, Extends, Push;
    FetchAt(lay, c, b, xs);
  }

  /** The code of `e` stands in code object `c`, inside the protected bodies `es`. */
  ghost predicate Placed(lay: Layout, c: Template, e: Node, t: int, b: Buf, es: seq<Handler>) {
    Extends(Emit(lay, c.kind == Block, e, t, b), CodeOf(lay, c)) && Region(lay, c, e, t, |b.code|, es) &&
    CodeMark(lay, c, |b.code| + Size(lay, e)) == Some(es) && Valid(lay, c, es)
  }

  ghost predicate Flowing(lay: Layout, c: Template, lo: int, hi: int, es: seq<Handler>) {
    CodeMark(lay, c, lo) == Some(es) && Flow(lay, c, lo, hi)
  }

  lemma FlowingJoins(lay: Layout, c: Template, lo: int, mid: int, hi: int, es: seq<Handler>)
    requires Flowing(lay, c, lo, mid, es) && Flow(lay, c, mid, hi)
    ensures Flowing(lay, c, lo, hi, es)
  {
    hide FlowsAt, CodeMark;
  }

  lemma SendFlows(lay: Layout, c: Template, b: Buf, t: int, name: string, r: int, n: int, es: seq<Handler>)
    requires Extends(PushSend(b, t, name, r, n), CodeOf(lay, c))
    requires forall q :: |b.code| <= q < |b.code| + 5 ==> CodeMark(lay, c, q) == Here(q, |b.code|, es)
    requires CodeMark(lay, c, |b.code| + 5) == Some(es) && Valid(lay, c, es)
    ensures Flowing(lay, c, |b.code|, |b.code| + 5, es)
  {
    hide CodeMark, CodeOf, Valid;
    assert Extends(Push(b, [SEND, t, |b.strs|, r, n]), CodeOf(lay, c));
    StraightFlows(lay, c, b, [SEND, t, |b.strs|, r, n], es);
  }

  lemma PlaceFlows(lay: Layout, c: Template, b: Buf, l: Option<Loc>, t: int, get: bool, es: seq<Handler>)
    requires Extends(if get then PushGet(b, l, t) else PushSet(b, l, t), CodeOf(lay, c))
    requires var n := if get then GetSize(l) else SetSize(l);
      (forall q :: |b.code| <= q < |b.code| + n ==> CodeMark(lay, c, q) == Here(q, |b.code|, es)) &&
      CodeMark(lay, c, |b.code| + n) == Some(es)
    requires Valid(lay, c, es)
    ensures Flowing(lay, c, |b.code|, |b.code| + if get then GetSize(l) else SetSize(l), es)
  {
    hide CodeMark, CodeOf, Valid;
    if l.Some? {
      StraightFlows(lay, c, b, if get then GetCode(l.value, t) else SetCode(l.value, t), es);
    }
  }

  lemma {:induction false} SimpleFlows(lay: Layout, c: Template, e: Node, t: int, b: Buf, es: seq<Handler>)
    requires e.Number? || e.Nil? || e.True? || e.False? || e.LiteralString? || e.Lambda? || e.Self?
    requires Placed(lay, c, e, t, b, es)
    ensures Flowing(lay, c, |b.code|, |b.code| + Size(lay, e), es)
  {
    hide CodeMark, CodeOf, Valid, Flow;
    match e
    case Number(v) => StraightFlows(lay, c, b, NumberCode(v, t), es);
    case Nil => StraightFlows(lay, c, b, [MOVN, t], es);
    case True => StraightFlows(lay, c, b, [MOVT, t], es);
    case False => StraightFlows(lay, c, b, [MOVF, t], es);
    case LiteralString(_) => StraightFlows(lay, c, b, [LOADS, t, |b.strs|], es);
    case Lambda(_) => StraightFlows(lay, c, b, [LOADC, t, |b.codes|], es);
    case Self(id) => PlaceFlows(lay, c, b, lay.At(id), t, true, es);
  }

  lemma {:induction false} NamedFlows(lay: Layout, c: Template, e: Node, t: int, b: Buf, es: seq<Handler>)
    requires e.Named? && Placed(lay, c, e, t, b, es)
    ensures Flowing(lay, c, |b.code|, |b.code| + Size(lay, e), es)
  {
    hide CodeMark, CodeOf, Valid, Flow;
    if lay.At(e.id).Some? {
      PlaceFlows(lay, c, b, lay.At(e.id), t, true, es);
    } else {
      var b1 := Push(b, [SELF, t]);
      assert Here(|b1.code|, |b1.code|, es) == CodeMark(lay, c, |b1.code|);
      SendFlows(lay, c, b1, t, e.name, t, 0, es);
      StraightFlows(lay, c, b, [SELF, t], es);
      FlowingJoins(lay, c, |b.code|, |b1.code|, |b.code| + 7, es);
    }
  }

  lemma {:induction false} DefFlows(lay: Layout, c: Template, e: Node, t: int, b: Buf, es: seq<Handler>)
    requires e.Def? && Placed(lay, c, e, t, b, es)
    ensures Flowing(lay, c, |b.code|, |b.code| + Size(lay, e), es)
  {
    hide CodeMark, CodeOf, Valid, Flow;
    var b1 := Push(b, [SELF, t]);
    var b2 := PushLoadString(b1, t + 1, e.name);
    var b3 := PushLoadCode(b2, t + 2, Template(e.scope, Method));
    var pos := |b.code|;
    SendFlows(lay, c, b3, t, "add_method", t, 2, es);
    assert Extends(Push(b2, [LOADC, t + 2, |b2.codes|]), CodeOf(lay, c));
    StraightFlows(lay, c, b2, [LOADC, t + 2, |b2.codes|], es);
    assert Extends(Push(b1, [LOADS, t + 1, |b1.strs|]), CodeOf(lay, c));
    StraightFlows(lay, c, b1, [LOADS, t + 1, |b1.strs|], es);
    StraightFlows(lay, c, b, [SELF, t], es);
    FlowingJoins(lay, c, pos, pos + 2, pos + 5, es);
    FlowingJoins(lay, c, pos, pos + 5, pos + 8, es);
    FlowingJoins(lay, c, pos, pos + 8, pos + 13, es);
  }

  lemma {:induction false} ThenFlows(lay: Layout, c: Template, e: Node, v: Node, xs: seq<int>, t: int, b: Buf,
                                     es: seq<Handler>)
    requires v < e && |xs| > 0 && InsnLen(xs[0]) == |xs|
    requires Straight(xs[0]) || xs[0] == RET || xs[0] == LRET || xs[0] == RAISE
    requires Extends(Push(Emit(lay, c.kind == Block, v, t, b), xs), CodeOf(lay, c)) && Valid(lay, c, es)
    requires Region(lay, c, v, t, |b.code|, es)
    requires var m := |b.code| + Size(lay, v);
      (forall q :: m <= q < m + |xs| ==> CodeMark(lay, c, q) == Here(q, m, es)) &&
      CodeMark(lay, c, m + |xs|) == Some(es)
    ensures Flowing(lay, c, |b.code|, |b.code| + Size(lay, v) + |xs|, es)
    decreases e, 0
  {
    hide CodeMark, CodeOf, Valid, Flow, Emit, Size, Region;
    var b1 := Emit(lay, c.kind == Block, v, t, b);
    EmitGrows(lay, c.kind == Block, v, t, b);
    if Straight(xs[0]) { StraightFlows(lay, c, b1, xs, es); } else { OtherFlows(lay, c, b1, xs, es); }
    NodeFlows(lay, c, v, t, b, es);
    FlowingJoins(lay, c, |b.code|, |b1.code|, |b1.code| + |xs|, es);
  }

  lemma UnaryShape(lay: Layout, blk: bool, e: Node, t: int, b: Buf) returns (xs: seq<int>)
    requires e.Not? || e.Raise? || e.Return?
    ensures Emit(lay, blk, e, t, b) == Push(Emit(lay, blk, e.value, t, b), xs)
    ensures |xs| > 0 && InsnLen(xs[0]) == |xs| && Size(lay, e) == Size(lay, e.value) + |xs|
    ensures xs[0] == NOT || xs[0] == RET || xs[0] == LRET || xs[0] == RAISE
  {
    xs := match e case Not(_) => [NOT, t, t] case Raise(_) => [RAISE, t] case _ => [if blk then LRET else RET, t];
  }

  lemma UnaryMark(lay: Layout, e: Node, t: int, pos: int, es: seq<Handler>, q: int)
    requires e.Not? || e.Raise? || e.Return?
    ensures MarkAt(lay, e, t, pos, es, q) == MarkThen(lay, e.value, t, pos, es, q)
  {}

  lemma {:induction false} UnaryFlows(lay: Layout, c: Template, e: Node, t: int, b: Buf, es: seq<Handler>)
    requires (e.Not? || e.Raise? || e.Return?) && Placed(lay, c, e, t, b, es)
    ensures Flowing(lay, c, |b.code|, |b.code| + Size(lay, e), es)
    decreases e, 1
  {
    hide CodeMark, CodeOf, Valid, Flow, Emit, Size, MarkAt;
    var xs := UnaryShape(lay, c.kind == Block, e, t, b);
    forall q { UnaryMark(lay, e, t, |b.code|, es, q); }
    ThenFlows(lay, c, e, e.value, xs, t, b, es);
  }

  lemma SeqParts(lay: Layout, c: Template, e: Node, t: int, b: Buf, es: seq<Handler>)
    requires e.Seq? && Placed(lay, c, e, t, b, es)
    ensures var b1 := Emit(lay, c.kind == Block, e.first, t, b);
      Placed(lay, c, e.second, t, b1, es) && |b1.code| + Size(lay, e.second) == |b.code| + Size(lay, e) &&
      (CodeMark(lay, c, |b1.code|) == Some(es) ==> Placed(lay, c, e.first, t, b, es))
  {
    hide CodeMark, CodeOf, Valid, Flow;
    var b1 := Emit(lay, c.kind == Block, e.first, t, b);
    EmitGrows(lay, c.kind == Block, e.first, t, b);
    EmitGrows(lay, c.kind == Block, e.second, t, b1);
  }

  lemma {:induction false} SeqFlows(lay: Layout, c: Template, e: Node, t: int, b: Buf, es: seq<Handler>)
    requires e.Seq? && Placed(lay, c, e, t, b, es)
    ensures Flowing(lay, c, |b.code|, |b.code| + Size(lay, e), es)
    decreases e, 1
  {
    hide Emit, Size, Placed, CodeMark, Flow;
    var b1 := Emit(lay, c.kind == Block, e.first, t, b);
    EmitGrows(lay, c.kind == Block, e.first, t, b);
    SeqParts(lay, c, e, t, b, es);
    NodeFlows(lay, c, e.second, t, b1, es);
    NodeFlows(lay, c, e.first, t, b, es);
    FlowingJoins(lay, c, |b.code|, |b1.code|, |b.code| + Size(lay, e), es);
  }

  lemma AssignMark(lay: Layout, e: Node, t: int, pos: int, es: seq<Handler>, q: int)
    requires e.Assign?
    ensures var m := pos + Size(lay, e.value);
      MarkAt(lay, e, t, pos, es, q) == if q < m then MarkAt(lay, e.value, t, pos, es, q) else Here(q, m, es)
  {
    hide Size, Here;
  }

  lemma AssignShape(lay: Layout, blk: bool, e: Node, t: int, b: Buf)
    requires e.Assign?
    ensures Emit(lay, blk, e, t, b) == PushSet(Emit(lay, blk, e.value, t, b), lay.At(e.id), t)
    ensures Size(lay, e) == Size(lay, e.value) + SetSize(lay.At(e.id))
  {
    hide PushSet, SetSize;
  }

  lemma {:induction false} AssignFlows(lay: Layout, c: Template, e: Node, t: int, b: Buf, es: seq<Handler>)
    requires e.Assign? && Placed(lay, c, e, t, b, es)
    ensures Flowing(lay, c, |b.code|, |b.code| + Size(lay, e), es)
    decreases e, 1
  {
    hide CodeMark, CodeOf, Valid, Flow, MarkAt, Emit, Size, SetSize;
    var b1 := Emit(lay, c.kind == Block, e.value, t, b);
    forall q { AssignMark(lay, e, t, |b.code|, es, q); }
    AssignShape(lay, c.kind == Block, e, t, b);
    EmitGrows(lay, c.kind == Block, e.value, t, b);
    PlaceFlows(lay, c, b1, lay.At(e.id), t, false, es);
    NodeFlows(lay, c, e.value, t, b, es);
    FlowingJoins(lay, c, |b.code|, |b1.code|, |b.code| + Size(lay, e), es);
  }

  lemma AssignOpMark(lay: Layout, e: Node, t: int, pos: int, es: seq<Handler>, q: int)
    requires e.AssignOp?
    ensures var m := pos + GetSize(lay.At(e.id));
      var n := m + Size(lay, e.value);
      MarkAt(lay, e, t, pos, es, q) ==
      if q < m then Here(q, pos, es)
      else if q < n then MarkAt(lay, e.value, t + 1, m, es, q)
      else if q == n then Some(es)
      else Here(q, n + 5, es)
  {
    hide Size, GetSize, Here;
  }

  lemma {:induction false} AssignOpFlows(lay: Layout, c: Template, e: Node, t: int, b: Buf, es: seq<Handler>)
    requires e.AssignOp? && Placed(lay, c, e, t, b, es)
    ensures Flowing(lay, c, |b.code|, |b.code| + Size(lay, e), es)
    decreases e, 1
  {
    hide CodeMark, CodeOf, Valid, Flow, Extends, PushGet, PushSet, PushSend, GetSize, SetSize, Emit, MarkAt, Size;
    var blk, l := c.kind == Block, lay.At(e.id);
    forall q { AssignOpMark(lay, e, t, |b.code|, es, q); }
    AssignOpShape(lay, blk, e, t, b, CodeOf(lay, c));
    var b1 := PushGet(b, l, t);
    var b2 := Emit(lay, blk, e.value, t + 1, b1);
    var b3 := PushSend(b2, t, e.op, t, 1);
    PlaceFlows(lay, c, b3, l, t, false, es);
    SendFlows(lay, c, b2, t, e.op, t, 1, es);
    NodeFlows(lay, c, e.value, t + 1, b1, es);
    PlaceFlows(lay, c, b, l, t, true, es);
    FlowingJoins(lay, c, |b.code|, |b1.code|, |b2.code|, es);
    FlowingJoins(lay, c, |b.code|, |b2.code|, |b3.code|, es);
    FlowingJoins(lay, c, |b.code|, |b3.code|, |b.code| + Size(lay, e), es);
  }

  ghost predicate RegionGuarded(lay: Layout, c: Template, e: Node, x: Node, y: Node, t: int, pos: int, es: seq<Handler>)
    requires x < e && y < e
  {
    forall q :: pos <= q < pos + Size(lay, x) + 3 + Size(lay, y) ==>
      CodeMark(lay, c, q) == MarkGuarded(lay, e, x, y, t, pos, es, q)
  }

  lemma GuardedRegions(lay: Layout, c: Template, e: Node, x: Node, y: Node, t: int, pos: int, es: seq<Handler>)
    requires x < e && y < e && RegionGuarded(lay, c, e, x, y, t, pos, es)
    ensures Region(lay, c, x, t, pos, es) && Region(lay, c, y, t, pos + Size(lay, x) + 3, es)
    ensures forall q :: pos + Size(lay, x) <= q < pos + Size(lay, x) + 3 ==>
      CodeMark(lay, c, q) == Here(q, pos + Size(lay, x), es)
  {
    hide CodeMark, MarkAt, Size, Here;
    var m := pos + Size(lay, x);
    forall q | pos <= q < m ensures CodeMark(lay, c, q) == MarkAt(lay, x, t, pos, es, q) {
      assert CodeMark(lay, c, q) == MarkGuarded(lay, e, x, y, t, pos, es, q);
    }
    forall q | m + 3 <= q < m + 3 + Size(lay, y) ensures CodeMark(lay, c, q) == MarkAt(lay, y, t, m + 3, es, q) {
      assert CodeMark(lay, c, q) == MarkGuarded(lay, e, x, y, t, pos, es, q);
    }
    forall q | m <= q < m + 3 ensures CodeMark(lay, c, q) == Here(q, m, es) {
      assert CodeMark(lay, c, q) == MarkGuarded(lay, e, x, y, t, pos, es, q);
    }
  }

  /** Two nodes with a conditional jump over the second, as in `MarkGuarded`. */
  lemma {:induction false} GuardedFlows(lay: Layout, c: Template, e: Node, x: Node, op: int, y: Node, jump: int, t: int,
                                        b: Buf, es: seq<Handler>)
    requires x < e && y < e && (op == JMPIF || op == JMPIT) && Valid(lay, c, es)
    requires var b1 := Emit(lay, c.kind == Block, x, t, b);
      var b2 := Push(b1, [op, t, jump]);
      Extends(b2, CodeOf(lay, c)) && Extends(Emit(lay, c.kind == Block, y, t, b2), CodeOf(lay, c)) &&
      |b2.code| == |b.code| + Size(lay, x) + 3 && |b1.code| == |b.code| + Size(lay, x)
    requires var n := |b.code| + Size(lay, x) + 3;
      RegionGuarded(lay, c, e, x, y, t, |b.code|, es) &&
      CodeMark(lay, c, n + jump) == Some(es) && CodeMark(lay, c, n + Size(lay, y)) == Some(es)
    ensures Flowing(lay, c, |b.code|, |b.code| + Size(lay, x) + 3 + Size(lay, y), es)
    decreases e, 1
  {
    hide CodeMark, CodeOf, Valid, Flow, Emit, Size, MarkAt, Extends, Push, RegionGuarded, Region, Here;
    GuardedRegions(lay, c, e, x, y, t, |b.code|, es);
    var b1 := Emit(lay, c.kind == Block, x, t, b);
    var b2 := Push(b1, [op, t, jump]);
    PushedBefore(b1, [op, t, jump], CodeOf(lay, c));
    NodeFlows(lay, c, y, t, b2, es);
    OtherFlows(lay, c, b1, [op, t, jump], es);
    NodeFlows(lay, c, x, t, b, es);
    FlowingJoins(lay, c, |b.code|, |b1.code|, |b2.code|, es);
    FlowingJoins(lay, c, |b.code|, |b2.code|, |b2.code| + Size(lay, y), es);
  }

  lemma PushedBefore(b: Buf, xs: seq<int>, c: Buf)
    requires Extends(Push(b, xs), c)
    ensures Extends(b, c)
  {}

  lemma GuardedShape(lay: Layout, blk: bool, e: Node, t: int, b: Buf, c: Buf) returns (x: Node, op: int, y: Node)
    requires e.And? || (e.IfCond? && e.ebody.None?) || e.Unless?
    requires Extends(Emit(lay, blk, e, t, b), c)
    ensures x < e && y < e && (op == JMPIF || op == JMPIT)
    ensures var b1 := Emit(lay, blk, x, t, b);
      var b2 := Push(b1, [op, t, Size(lay, y)]);
      Extends(b2, c) && Extends(Emit(lay, blk, y, t, b2), c) &&
      |b2.code| == |b.code| + Size(lay, x) + 3 && |b1.code| == |b.code| + Size(lay, x)
    ensures Size(lay, e) == Size(lay, x) + 3 + Size(lay, y)
    ensures forall pos, es, q :: MarkAt(lay, e, t, pos, es, q) == MarkGuarded(lay, e, x, y, t, pos, es, q)
  {
    x := if e.And? then e.left else e.cond;
    y := if e.And? then e.right else e.body;
    op := if e.Unless? then JMPIT else JMPIF;
    var b2 := Push(Emit(lay, blk, x, t, b), [op, t, Size(lay, y)]);
    EmitGrows(lay, blk, x, t, b);
    EmitGrows(lay, blk, y, t, b2);
  }

  lemma {:induction false} IfFlows(lay: Layout, c: Template, e: Node, t: int, b: Buf, es: seq<Handler>)
    requires e.And? || (e.IfCond? && e.ebody.None?) || e.Unless?
    requires Placed(lay, c, e, t, b, es)
    ensures Flowing(lay, c, |b.code|, |b.code| + Size(lay, e), es)
    decreases e, 2
  {
    hide CodeMark, CodeOf, Valid, Flow, Emit, Size, MarkAt, MarkGuarded, Extends, Push;
    var x, op, y := GuardedShape(lay, c.kind == Block, e, t, b, CodeOf(lay, c));
    GuardedFlows(lay, c, e, x, op, y, Size(lay, y), t, b, es);
  }

  lemma {:induction false} IfElseFlows(lay: Layout, c: Template, e: Node, t: int, b: Buf, es: seq<Handler>)
    requires e.IfCond? && e.ebody.Some? && Placed(lay, c, e, t, b, es)
    ensures Flowing(lay, c, |b.code|, |b.code| + Size(lay, e), es)
    decreases e, 2
  {
    hide CodeMark, CodeOf, Valid, Flow, Emit, Size, Extends, Push, MarkGuarded;
    var blk, z := c.kind == Block, e.ebody.value;
    IfElseShape(lay, blk, e, t, b, CodeOf(lay, c));
    var b2 := Push(Emit(lay, blk, e.cond, t, b), [JMPIF, t, Size(lay, e.body) + 2]);
    var b3 := Emit(lay, blk, e.body, t, b2);
    var b4 := Push(b3, [JMPF, Size(lay, z)]);
    EmitGrows(lay, blk, e.body, t, b2);
    NodeFlows(lay, c, z, t, b4, es);
    OtherFlows(lay, c, b3, [JMPF, Size(lay, z)], es);
    GuardedFlows(lay, c, e, e.cond, JMPIF, e.body, Size(lay, e.body) + 2, t, b, es);
    FlowingJoins(lay, c, |b.code|, |b3.code|, |b4.code|, es);
    FlowingJoins(lay, c, |b.code|, |b4.code|, |b.code| + Size(lay, e), es);
  }

  /** The first instruction of a node stands inside the same bodies as the node. */
  lemma {:induction false} EntryMark(lay: Layout, e: Node, t: int, pos: int, es: seq<Handler>)
    requires Size(lay, e) > 0
    ensures MarkAt(lay, e, t, pos, es, pos) == Some(es)
    decreases e, 0
  {
    match e
    case Seq(x, y) => EntryMarkOr(lay, x, t, pos, es); EntryMarkOr(lay, y, t, pos, es);
    case Assign(_, _, _) => EntryMarkUnary(lay, e, t, pos, es);
    case AssignOp(id, _, _, v) => EntryMarkOr(lay, v, t + 1, pos + GetSize(lay.At(id)), es);
    case Not(_) => EntryMarkUnary(lay, e, t, pos, es);
    case Raise(_) => EntryMarkUnary(lay, e, t, pos, es);
    case Return(_) => EntryMarkUnary(lay, e, t, pos, es);
    case And(x, _) => EntryMarkOr(lay, x, t, pos, es);
    case IfCond(x, _, _) => EntryMarkOr(lay, x, t, pos, es);
    case Unless(x, _) => EntryMarkOr(lay, x, t, pos, es);
    case While(x, _) => EntryMarkOr(lay, x, t, pos, es);
    case Tuple(args) => EntryMarkArgs(lay, args, t, pos, es);
    case List(args) => EntryMarkArgs(lay, args, t, pos, es);
    case Send(_, _, _, recv, args) =>
      EntryMarkOr(lay, recv, t, pos, es);
      EntryMarkArgs(lay, args, t + 1, pos, es);
    case _ =>
  }

  lemma {:induction false} EntryMarkUnary(lay: Layout, e: Node, t: int, pos: int, es: seq<Handler>)
    requires (e.Assign? || e.Not? || e.Raise? || e.Return?) && Size(lay, e) > 0
    ensures MarkAt(lay, e, t, pos, es, pos) == Some(es)
    decreases e, 0, 0
  {
    hide Size;
    EntryMarkOr(lay, e.value, t, pos, es);
  }

  lemma {:induction false} EntryMarkOr(lay: Layout, e: Node, t: int, pos: int, es: seq<Handler>)
    ensures Size(lay, e) > 0 ==> MarkAt(lay, e, t, pos, es, pos) == Some(es)
    decreases e, 1
  {
    if Size(lay, e) > 0 { EntryMark(lay, e, t, pos, es); }
  }

  lemma {:induction false} EntryMarkArgs(lay: Layout, args: Nodes, t: int, pos: int, es: seq<Handler>)
    ensures SizeArgs(lay, args) > 0 ==> MarkArgs(lay, args, t, pos, es, pos) == Some(es)
    decreases args, 1
  {
    if args.More? {
      EntryMarkOr(lay, args.head, t, pos, es);
      EntryMarkArgs(lay, args.rest, t + 1, pos, es);
    }
  }

  lemma WhileMark(lay: Layout, e: Node, t: int, pos: int, es: seq<Handler>, q: int)
    requires e.While?
    ensures var m := pos + Size(lay, e.cond) + 3 + Size(lay, e.body);
      MarkAt(lay, e, t, pos, es, q) ==
      if q < m then MarkGuarded(lay, e, e.cond, e.body, t, pos, es, q) else Here(q, m, es)
  {
    hide Size, MarkGuarded;
  }

  lemma {:induction false} WhileFlows(lay: Layout, c: Template, e: Node, t: int, b: Buf, es: seq<Handler>)
    requires e.While? && Placed(lay, c, e, t, b, es)
    ensures Flowing(lay, c, |b.code|, |b.code| + Size(lay, e), es)
    decreases e, 2
  {
    hide CodeMark, CodeOf, Valid, Flow, Emit, Size, Extends, Push, MarkAt, MarkGuarded;
    var blk := c.kind == Block;
    WhileShape(lay, blk, e, t, b, CodeOf(lay, c));
    var b2 := Push(Emit(lay, blk, e.cond, t, b), [JMPIF, t, Size(lay, e.body) + 2]);
    var b3 := Emit(lay, blk, e.body, t, b2);
    EmitGrows(lay, blk, e.body, t, b2);
    EntryMark(lay, e, t, |b.code|, es);
    forall q { WhileMark(lay, e, t, |b.code|, es, q); }
    OtherFlows(lay, c, b3, [JMPB, Size(lay, e.cond) + Size(lay, e.body) + 3], es);
    GuardedFlows(lay, c, e, e.cond, JMPIF, e.body, Size(lay, e.body) + 2, t, b, es);
    FlowingJoins(lay, c, |b.code|, |b3.code|, |b.code| + Size(lay, e), es);
  }

  lemma {:induction false} ArgsFlows(lay: Layout, c: Template, args: Nodes, t: int, b: Buf, es: seq<Handler>)
    requires Extends(EmitArgs(lay, c.kind == Block, args, t, b), CodeOf(lay, c)) && Valid(lay, c, es)
    requires RegionArgs(lay, c, args, t, |b.code|, es)
    requires CodeMark(lay, c, |b.code| + SizeArgs(lay, args)) == Some(es)
    ensures Flowing(lay, c, |b.code|, |b.code| + SizeArgs(lay, args), es)
    decreases args, 4
  {
    hide CodeMark, CodeOf, Valid, Flow, Emit, Size, MarkAt, Extends;
    if args.More? {
      ArgsShape(lay, c.kind == Block, args, t, b, CodeOf(lay, c));
      var b1 := Emit(lay, c.kind == Block, args.head, t, b);
      ArgsFlows(lay, c, args.rest, t + 1, b1, es);
      NodeFlows(lay, c, args.head, t, b, es);
      FlowingJoins(lay, c, |b.code|, |b1.code|, |b.code| + SizeArgs(lay, args), es);
    } else {
      EmptyFlows(lay, c, |b.code|, es);
    }
  }

  lemma EmptyFlows(lay: Layout, c: Template, pos: int, es: seq<Handler>)
    requires CodeMark(lay, c, pos) == Some(es)
    ensures Flowing(lay, c, pos, pos, es)
  {}

  lemma GatherShape(lay: Layout, blk: bool, e: Node, t: int, b: Buf) returns (xs: seq<int>)
    requires e.Tuple? || e.List?
    ensures Emit(lay, blk, e, t, b) == Push(EmitArgs(lay, blk, e.args, t, b), xs)
    ensures |xs| == 4 && Straight(xs[0]) && InsnLen(xs[0]) == 4 && Size(lay, e) == SizeArgs(lay, e.args) + 4
    ensures forall pos, es, q ::
              MarkAt(lay, e, t, pos, es, q) ==
              (if q < pos + SizeArgs(lay, e.args) then MarkArgs(lay, e.args, t, pos, es, q)
               else Here(q, pos + SizeArgs(lay, e.args), es))
  {
    hide SizeArgs, MarkArgs, EmitArgs;
    xs := [if e.Tuple? then TUPLE else LIST, t, t, Count(e.args)];
  }

  lemma {:induction false} GatherFlows(lay: Layout, c: Template, e: Node, t: int, b: Buf, es: seq<Handler>)
    requires (e.Tuple? || e.List?) && Placed(lay, c, e, t, b, es)
    ensures Flowing(lay, c, |b.code|, |b.code| + Size(lay, e), es)
    decreases e, 2
  {
    hide CodeMark, CodeOf, Valid, Flow, Emit, EmitArgs, Size, SizeArgs, MarkAt, MarkArgs, Extends, Push;
    var xs := GatherShape(lay, c.kind == Block, e, t, b);
    var b1 := EmitArgs(lay, c.kind == Block, e.args, t, b);
    ArgsLength(lay, c.kind == Block, e.args, t, b);
    PushedBefore(b1, xs, CodeOf(lay, c));
    StraightFlows(lay, c, b1, xs, es);
    ArgsFlows(lay, c, e.args, t, b, es);
    FlowingJoins(lay, c, |b.code|, |b1.code|, |b1.code| + 4, es);
  }

  lemma ArgsLength(lay: Layout, blk: bool, args: Nodes, t: int, b: Buf)
    ensures |EmitArgs(lay, blk, args, t, b).code| == |b.code| + SizeArgs(lay, args)
  {
    EmitArgsGrows(lay, blk, args, t, b);
  }

  lemma {:induction false} SendNodeFlows(lay: Layout, c: Template, e: Node, t: int, b: Buf, es: seq<Handler>)
    requires e.Send? && Placed(lay, c, e, t, b, es)
    ensures Flowing(lay, c, |b.code|, |b.code| + Size(lay, e), es)
    decreases e, 2
  {
    hide CodeMark, CodeOf, Valid, Flow, Emit, EmitArgs, Size, SizeArgs, MarkArgs, Extends, PushGet, PushSend, GetSize;
    var blk, m := c.kind == Block, Markov(lay, e);
    SendShape(lay, blk, e, t, b, CodeOf(lay, c));
    var b1 := if m then PushGet(b, lay.At(e.id), t) else Emit(lay, blk, e.recv, t, b);
    var b2 := EmitArgs(lay, blk, e.args, t + 1, b1);
    EmitArgsGrows(lay, blk, e.args, t + 1, b1);
    SendFlows(lay, c, b2, t, if m then "apply" else e.name, t, Count(e.args), es);
    ArgsFlows(lay, c, e.args, t + 1, b1, es);
    if m { PlaceFlows(lay, c, b, lay.At(e.id), t, true, es); } else { NodeFlows(lay, c, e.recv, t, b, es); }
    FlowingJoins(lay, c, |b.code|, |b1.code|, |b2.code|, es);
    FlowingJoins(lay, c, |b.code|, |b2.code|, |b.code| + Size(lay, e), es);
  }

  // ----- try -----

  /** Marks on a typed handler that starts at `h`. */
  function MarkTyped(lay: Layout, e: Node, t: int, h: int, es: seq<Handler>, q: int): Mark
    requires e.Try? && e.excName.Some? && e.excType.Some?
  {
    var ty := e.excType.value;
    var m := h + Size(lay, ty);
    var n := m + 11 + SetSize(lay.At(e.id));
    var l := n + Size(lay, e.handler);
    if q < m then MarkAt(lay, ty, t + 1, h, es, q)
    else if q < n then (if q == m || q == m + 3 || q == m + 8 then Some(es) else Here(q, m + 11, es))
    else if q < l then MarkAt(lay, e.handler, t, n, es, q)
    else if q == l then Some(es)
    else Here(q, l + 2, es)
  }

  /** Marks on the handler of a try node. */
  function MarkHandler(lay: Layout, e: Node, t: int, h: int, es: seq<Handler>, q: int): Mark
    requires e.Try?
  {
    if e.excName.Some? && e.excType.Some? then MarkTyped(lay, e, t, h, es, q) else MarkAt(lay, e.handler, t, h, es, q)
  }

  lemma TryMark(lay: Layout, e: Node, t: int, pos: int, es: seq<Handler>, q: int)
    requires e.Try?
    ensures var h := pos + Size(lay, e.body) + 6;
      var inside := es + [Handler(t, h)];
      MarkAt(lay, e, t, pos, es, q) ==
      if q < pos + 3 then Here(q, pos, es)
      else if q < h - 3 then MarkAt(lay, e.body, t, pos + 3, inside, q)
      else if q == h - 3 then Some(inside)
      else if q < h then Here(q, h - 2, es)
      else MarkHandler(lay, e, t, h, es, q)
  {
    hide Size;
  }

  lemma {:induction false} TryFlows(lay: Layout, c: Template, e: Node, t: int, b: Buf, es: seq<Handler>)
    requires e.Try? && Placed(lay, c, e, t, b, es)
    ensures Flowing(lay, c, |b.code|, |b.code| + Size(lay, e), es)
    decreases e, 2
  {
    hide CodeMark, CodeOf, Flow, Emit, Size, MarkAt, Extends, Push, HandlerSize, TryBody, MarkHandler;
    var blk, pos := c.kind == Block, |b.code|;
    var h := pos + Size(lay, e.body) + 6;
    var inside := es + [Handler(t, h)];
    TryShape(lay, blk, e, t, b, CodeOf(lay, c));
    forall q { TryMark(lay, e, t, pos, es, q); }
    HandlerFlows(lay, c, e, t, TryBody(lay, blk, e, t, b), b, es);
    var b1 := Push(b, [REGE, t, h]);
    var b2 := Emit(lay, blk, e.body, t, b1);
    TryEnd(b2, HandlerSize(lay, e), CodeOf(lay, c));
    OtherFlows(lay, c, Push(b2, [POPE]), [JMPF, HandlerSize(lay, e)], es);
    assert inside[..|inside| - 1] == es;
    assert Valid(lay, c, inside) by {
      forall i | 0 <= i < |inside| ensures CodeMark(lay, c, inside[i].ip) == Some(inside[..i]) {
        if i < |es| { assert inside[..i] == es[..i]; } else { assert inside[..i] == es; }
      }
    }
    OtherFlows(lay, c, b2, [POPE], inside);
    EmitGrows(lay, blk, e.body, t, b1);
    NodeFlows(lay, c, e.body, t, b1, inside);
    OtherFlows(lay, c, b, [REGE, t, h], es);
    TryJoins(lay, c, pos, h, pos + Size(lay, e), es);
  }

  lemma TryEnd(b: Buf, jump: int, c: Buf)
    requires Extends(Push(b, [POPE, JMPF, jump]), c)
    ensures Extends(Push(b, [POPE]), c) && Extends(Push(Push(b, [POPE]), [JMPF, jump]), c)
    ensures |Push(b, [POPE]).code| == |b.code| + 1
  {
    assert Push(Push(b, [POPE]), [JMPF, jump]) == Push(b, [POPE, JMPF, jump]);
  }

  lemma TryJoins(lay: Layout, c: Template, pos: int, h: int, end: int, es: seq<Handler>)
    requires Flowing(lay, c, pos, pos + 3, es) && Flow(lay, c, pos + 3, h - 3) && Flow(lay, c, h - 3, h - 2)
    requires Flow(lay, c, h - 2, h) && Flow(lay, c, h, end)
    ensures Flowing(lay, c, pos, end, es)
  {
    hide FlowsAt, CodeMark;
  }

  lemma {:induction false} HandlerFlows(lay: Layout, c: Template, e: Node, t: int, bh: Buf, b: Buf, es: seq<Handler>)
    requires e.Try? && Extends(Emit(lay, c.kind == Block, e, t, b), CodeOf(lay, c)) && Valid(lay, c, es)
    requires bh == TryBody(lay, c.kind == Block, e, t, b)
    requires forall q :: |bh.code| <= q < |bh.code| + HandlerSize(lay, e) ==>
      CodeMark(lay, c, q) == MarkHandler(lay, e, t, |bh.code|, es, q)
    requires CodeMark(lay, c, |bh.code| + HandlerSize(lay, e)) == Some(es)
    ensures Flowing(lay, c, |bh.code|, |bh.code| + HandlerSize(lay, e), es)
    decreases e, 1
  {
    hide CodeMark, CodeOf, Valid, Flow, MarkAt, Extends, TryBody, MarkTyped;
    if e.excName.Some? && e.excType.Some? {
      TypedFlows(lay, c, e, t, bh, b, es);
    } else {
      NodeFlows(lay, c, e.handler, t, bh, es);
    }
  }

  lemma {:induction false} TypedFlows(lay: Layout, c: Template, e: Node, t: int, bh: Buf, b: Buf, es: seq<Handler>)
    requires e.Try? && e.excName.Some? && e.excType.Some?
    requires Extends(Emit(lay, c.kind == Block, e, t, b), CodeOf(lay, c)) && Valid(lay, c, es)
    requires bh == TryBody(lay, c.kind == Block, e, t, b)
    requires forall q :: |bh.code| <= q < |bh.code| + HandlerSize(lay, e) ==>
      CodeMark(lay, c, q) == MarkTyped(lay, e, t, |bh.code|, es, q)
    requires CodeMark(lay, c, |bh.code| + HandlerSize(lay, e)) == Some(es)
    ensures Flowing(lay, c, |bh.code|, |bh.code| + HandlerSize(lay, e), es)
    decreases e, 0
  {
    hide CodeMark, CodeOf, Valid, Flow, Emit, Size, MarkAt, Extends, Push, PushSend, PushSet, SetSize, HandlerSize,
         TryBody;
    var blk, l, ty := c.kind == Block, lay.At(e.id), e.excType.value;
    TypedShape(lay, blk, e, t, b, CodeOf(lay, c));
    var b1 := Emit(lay, blk, ty, t + 1, bh);
    var b2 := Push(b1, [MOVR, t + 2, t]);
    var b3 := PushSend(b2, t + 1, "===", t + 1, 1);
    var jump := SetSize(l) + Size(lay, e.handler) + 2;
    var b4 := Push(b3, [JMPIF, t + 1, jump]);
    var b5 := PushSet(b4, l, t);
    var b6 := Emit(lay, blk, e.handler, t, b5);
    PushedLength(b1, [MOVR, t + 2, t]);
    PushedLength(b3, [JMPIF, t + 1, jump]);
    JumpAndRaise(b6, t, CodeOf(lay, c));
    OtherFlows(lay, c, Push(b6, [JMPF, 2]), [RAISE, t], es);
    OtherFlows(lay, c, b6, [JMPF, 2], es);
    NodeFlows(lay, c, e.handler, t, b5, es);
    PlaceFlows(lay, c, b4, l, t, false, es);
    OtherFlows(lay, c, b3, [JMPIF, t + 1, jump], es);
    SendFlows(lay, c, b2, t + 1, "===", t + 1, 1, es);
    StraightFlows(lay, c, b1, [MOVR, t + 2, t], es);
    NodeFlows(lay, c, ty, t + 1, bh, es);
    FlowingJoins(lay, c, |bh.code|, |b1.code|, |b2.code|, es);
    FlowingJoins(lay, c, |bh.code|, |b2.code|, |b3.code|, es);
    FlowingJoins(lay, c, |bh.code|, |b3.code|, |b4.code|, es);
    FlowingJoins(lay, c, |bh.code|, |b4.code|, |b5.code|, es);
    FlowingJoins(lay, c, |bh.code|, |b5.code|, |b6.code|, es);
    FlowingJoins(lay, c, |bh.code|, |b6.code|, |b6.code| + 2, es);
    FlowingJoins(lay, c, |bh.code|, |b6.code| + 2, |bh.code| + HandlerSize(lay, e), es);
  }

  lemma PushedLength(b: Buf, xs: seq<int>)
    ensures |Push(b, xs).code| == |b.code| + |xs|
  {}

  lemma JumpAndRaise(b: Buf, t: int, c: Buf)
    requires Extends(Push(b, [JMPF, 2, RAISE, t]), c)
    ensures Extends(Push(b, [JMPF, 2]), c) && Extends(Push(Push(b, [JMPF, 2]), [RAISE, t]), c)
    ensures |Push(b, [JMPF, 2]).code| == |b.code| + 2
  {
    assert Push(Push(b, [JMPF, 2]), [RAISE, t]) == Push(b, [JMPF, 2, RAISE, t]);
  }

  /** The marks of a node are the handlers its instructions run with. */
  lemma {:induction false} NodeFlows(lay: Layout, c: Template, e: Node, t: int, b: Buf, es: seq<Handler>)
    requires Placed(lay, c, e, t, b, es)
    ensures Flowing(lay, c, |b.code|, |b.code| + Size(lay, e), es)
    decreases e, 3
  {
    hide Placed, Flowing, Size, Emit, MarkAt;
    match e
    case Seq(_, _) => SeqFlows(lay, c, e, t, b, es);
    case Named(_, _) => NamedFlows(lay, c, e, t, b, es);
    case Assign(_, _, _) => AssignFlows(lay, c, e, t, b, es);
    case AssignOp(_, _, _, _) => AssignOpFlows(lay, c, e, t, b, es);
    case Not(_) => UnaryFlows(lay, c, e, t, b, es);
    case Raise(_) => UnaryFlows(lay, c, e, t, b, es);
    case Return(_) => UnaryFlows(lay, c, e, t, b, es);
    case And(_, _) => IfFlows(lay, c, e, t, b, es);
    case Unless(_, _) => IfFlows(lay, c, e, t, b, es);
    case IfCond(_, _, y) => if y.Some? { IfElseFlows(lay, c, e, t, b, es); } else { IfFlows(lay, c, e, t, b, es); }
    case While(_, _) => WhileFlows(lay, c, e, t, b, es);
    case Tuple(_) => GatherFlows(lay, c, e, t, b, es);
    case List(_) => GatherFlows(lay, c, e, t, b, es);
    case Send(_, _, _, _, _) => SendNodeFlows(lay, c, e, t, b, es);
    case Try(_, _, _, _, _) => TryFlows(lay, c, e, t, b, es);
    case Def(_, _) => DefFlows(lay, c, e, t, b, es);
    case _ => SimpleFlows(lay, c, e, t, b, es);
  }

  // ----- whole code objects -----

  ghost predicate AllStores(b: Buf) {
    |b.code| % 4 == 0 && forall q :: 0 <= q < |b.code| && q % 4 == 0 ==> b.code[q] == SVAR
  }

  lemma {:induction false} ArgumentsStore(lay: Layout, args: seq<Argument>, i: nat, b: Buf)
    requires i <= |args| && AllStores(b)
    ensures AllStores(EmitArguments(lay, args, i, b))
    decreases |args| - i
  {
    if i < |args| {
      ArgumentStores(lay, args[i], i, b);
      ArgumentsStore(lay, args, i + 1, EmitArgument(lay, args[i], i, b));
    }
  }

  lemma ArgumentStores(lay: Layout, a: Argument, position: int, b: Buf)
    requires AllStores(b)
    ensures AllStores(EmitArgument(lay, a, position, b))
  {}

  lemma PrologStores(lay: Layout, s: Scope)
    ensures AllStores(EmitProlog(lay, s, Empty))
  {
    if s.self.Some? {
      ArgumentStores(lay, s.self.value, -1, Empty);
      ArgumentsStore(lay, s.args, 0, EmitArgument(lay, s.self.value, -1, Empty));
    } else {
      ArgumentsStore(lay, s.args, 0, Empty);
    }
  }

  /** The parts of a code object whose bytes fit. */
  lemma CodeShape(lay: Layout, c: Template)
    requires FitsBytes(lay, c)
    ensures var b := EmitProlog(lay, c.scope, Empty);
      var t := TempBase(lay, c.scope, c.kind);
      var b1 := Emit(lay, c.kind == Block, c.scope.body, t, b);
      Extends(b, CodeOf(lay, c)) && Extends(b1, CodeOf(lay, c)) && |b1.code| == |b.code| + Size(lay, c.scope.body) &&
      CodeOf(lay, c) == if c.kind == Top then b1 else Push(b1, [RET, t])
  {
    hide Emit;
    FitsIsExact(lay, c);
    EmitGrows(lay, c.kind == Block, c.scope.body, TempBase(lay, c.scope, c.kind), EmitProlog(lay, c.scope, Empty));
  }

  lemma PrologFlows(lay: Layout, c: Template)
    requires FitsBytes(lay, c)
    ensures Flow(lay, c, 0, |EmitProlog(lay, c.scope, Empty).code|)
  {
    hide EmitProlog, Emit, Size, MarkAt, CodeOf, RawCode;
    var b := EmitProlog(lay, c.scope, Empty);
    CodeShape(lay, c);
    PrologStores(lay, c.scope);
    EntryMarkOr(lay, c.scope.body, TempBase(lay, c.scope, c.kind), |b.code|, []);
    forall q | 0 <= q < |b.code| && CodeMark(lay, c, q).Some? ensures FlowsAt(lay, c, q) {
      assert CodeOf(lay, c).code[q] == b.code[q];
    }
  }

  lemma BodyFlows(lay: Layout, c: Template)
    requires FitsBytes(lay, c)
    ensures var start := |EmitProlog(lay, c.scope, Empty).code|;
      Flow(lay, c, start, start + Size(lay, c.scope.body))
  {
    hide EmitProlog, Emit, Size, MarkAt, CodeOf, RawCode;
    CodeShape(lay, c);
    NodeFlows(lay, c, c.scope.body, TempBase(lay, c.scope, c.kind), EmitProlog(lay, c.scope, Empty), []);
  }

  /** Every instruction of a code object hands its successors the handlers they expect. */
  lemma CodeFlows(lay: Layout, c: Template)
    requires FitsBytes(lay, c)
    ensures Flow(lay, c, 0, |CodeOf(lay, c).code|) && CodeMark(lay, c, 0) == Some([])
  {
    hide EmitProlog, Emit, Size, MarkAt, CodeOf, RawCode, FlowsAt;
    var b := EmitProlog(lay, c.scope, Empty);
    var end := |b.code| + Size(lay, c.scope.body);
    CodeShape(lay, c);
    PrologFlows(lay, c);
    BodyFlows(lay, c);
    FlowJoins(lay, c, 0, |b.code|, end);
    EntryMarkOr(lay, c.scope.body, TempBase(lay, c.scope, c.kind), |b.code|, []);
    if c.kind != Top {
      ReturnFlows(lay, c, end);
      FlowJoins(lay, c, 0, end, end + 2);
    }
  }

  lemma ReturnFlows(lay: Layout, c: Template, end: int)
    requires FitsBytes(lay, c) && c.kind != Top
    requires end == |EmitProlog(lay, c.scope, Empty).code| + Size(lay, c.scope.body)
    ensures Flow(lay, c, end, end + 2)
  {
    hide EmitProlog, Emit, Size, MarkAt, CodeOf, RawCode;
    var t := TempBase(lay, c.scope, c.kind);
    CodeShape(lay, c);
    OtherFlows(lay, c, Emit(lay, c.kind == Block, c.scope.body, t, EmitProlog(lay, c.scope, Empty)), [RET, t], []);
  }

  // ----- runs -----

  /** The runtime is sane, and all code of the program fits its bytes. */
  ghost predicate FittingProgram(p: Program) {
    SaneRuntime(p) && forall c :: CodeIn(p, c) ==> FitsBytes(p.lay, c)
  }

  lemma FoundFits(p: Program, s: State, i: int, name: string)
    requires FittingProgram(p) && StateOk(p, s) && s.Running? && p.env.find(s.w, Get(s.regs, i), name).Bytecode?
    ensures FitsBytes(p.lay, p.env.find(s.w, Get(s.regs, i), name).m.code)
  {
    hide FitsBytes, CodeIn, ClosuresOk, FramesOk, MethodOk, NativeOk, MadeOk;
    GetOk(p, s.w, s.regs, i);
    MethodIn(p, s.w, p.env.find(s.w, Get(s.regs, i), name).m);
  }

  /** The activation's handler stack is the list of try nodes around its instruction. */
  ghost predicate Disciplined(p: Program, f: Frame) {
    FitsBytes(p.lay, f.m.code) && 0 <= f.ip <= |Code(p, f).code| && CodeMark(p.lay, f.m.code, f.ip) == Some(f.es)
  }

  ghost predicate AtCall(p: Program, f: Frame) {
    Disciplined(p, f) && f.ip < |Code(p, f).code| && Code(p, f).code[f.ip] == SEND
  }

  ghost predicate AllDisciplined(p: Program, s: State) {
    s.Running? ==> Disciplined(p, s.top) && forall f :: f in s.callers ==> AtCall(p, f)
  }

  lemma Flows(p: Program, f: Frame)
    requires Disciplined(p, f) && f.ip < |Code(p, f).code|
    ensures FlowsAt(p.lay, f.m.code, f.ip)
  {
    hide FlowsAt, CodeMark, CodeOf, FitsBytes;
    CodeFlows(p.lay, f.m.code);
  }

  /** A mark is only ever put on the code of the object or its end. */
  lemma Marked(lay: Layout, c: Template, q: int)
    requires FitsBytes(lay, c) && CodeMark(lay, c, q).Some?
    ensures 0 <= q <= |CodeOf(lay, c).code|
  {
    hide EmitProlog, Emit, Size, MarkAt, CodeOf, RawCode;
    CodeShape(lay, c);
  }

  lemma {:induction false} DeliverKeeps(p: Program, frames: seq<Frame>, o: Outcome, regs: Regs, w: World)
    requires forall i :: 0 <= i < |frames| ==>
      if i < |frames| - 1 || o.Ret? then AtCall(p, frames[i])
      else Disciplined(p, frames[i]) && frames[i].ip < |Code(p, frames[i]).code|
    ensures AllDisciplined(p, Deliver(p, frames, o, regs, w))
    decreases |frames|
  {
    hide CodeMark, CodeOf, FitsBytes;
    if frames != [] {
      var f := frames[|frames| - 1];
      var callers := frames[..|frames| - 1];
      Flows(p, f);
      match o
      case Ret(_) => Marked(p.lay, f.m.code, f.ip + 5);
      case Unwind(_) =>
        if f.es == [] { DeliverKeeps(p, callers, o, regs, w); } else { Marked(p.lay, f.m.code, f.es[|f.es| - 1].ip); }
      case LongRet(v, target) => DeliverKeeps(p, callers, if target == f.clos then Ret(v) else o, regs, w);
    }
  }

  lemma CallKeeps(p: Program, s: State)
    requires FittingProgram(p) && StateOk(p, s) && s.Running? && AllDisciplined(p, s)
    requires s.top.ip < |Code(p, s.top).code| && Code(p, s.top).code[s.top.ip] == SEND
    ensures AllDisciplined(p, Step(p, s))
  {
    hide CodeMark, CodeOf, FitsBytes, Deliver, FittingProgram, StateOk;
    var frames := s.callers + [s.top];
    var c, q := Code(p, s.top), s.top.ip;
    var name, argc := At(c.code, q + 2), At(c.code, q + 4);
    if 0 <= name < |c.strs| && 0 <= argc {
      var v := Get(s.regs, s.top.fp + At(c.code, q + 3));
      match p.env.find(s.w, v, c.strs[name])
      case NotFound =>
        var (e, w') := p.env.missing(s.w, c.strs[name]);
        DeliverKeeps(p, frames, Unwind(e), s.regs, w');
      case Native =>
        var start := s.top.fp + At(c.code, q + 3);
        var r := p.env.native(s.w, v, c.strs[name], Window(s.regs, start + 1, argc));
        DeliverKeeps(p, frames, r.o, Scribble(s.regs, start, r.scratch), r.w);
      case Bytecode(m, _) =>
        var (e, w') := p.env.badArity(s.w, Arity(m), argc);
        DeliverKeeps(p, frames, Unwind(e), s.regs, w');
        FoundFits(p, s, s.top.fp + At(c.code, q + 3), c.strs[name]);
        CodeFlows(p.lay, m.code);
    }
  }

  /** Moving on past a straight instruction. */
  lemma NextKeeps(p: Program, s: State, n: int, regs: Regs, w: World)
    requires s.Running? && AllDisciplined(p, s) && s.top.ip < |Code(p, s.top).code|
    requires var op := Code(p, s.top).code[s.top.ip]; Straight(op) && InsnLen(op) == n
    ensures AllDisciplined(p, Next(s.callers, s.top, n, regs, w))
  {
    hide CodeMark, CodeOf, FitsBytes;
    Flows(p, s.top);
    Marked(p.lay, s.top.m.code, s.top.ip + n);
  }

  lemma MoveKeeps(p: Program, s: State, op: int)
    requires s.Running? && AllDisciplined(p, s) && s.top.ip < |Code(p, s.top).code|
    requires Code(p, s.top).code[s.top.ip] == op
    ensures AllDisciplined(p, MoveStep(p, op, s.callers, s.top, s.regs, s.w))
  {
    hide CodeMark, CodeOf, FitsBytes, AllDisciplined;
    match MoveStep(p, op, s.callers, s.top, s.regs, s.w)
    case Running(_, _, regs, w) => NextKeeps(p, s, InsnLen(op), regs, w);
    case _ => NotRunning(p, MoveStep(p, op, s.callers, s.top, s.regs, s.w));
  }

  lemma NotRunning(p: Program, s: State)
    requires !s.Running?
    ensures AllDisciplined(p, s)
  {}

  lemma WorldKeeps(p: Program, s: State, op: int)
    requires s.Running? && AllDisciplined(p, s) && s.top.ip < |Code(p, s.top).code|
    requires Code(p, s.top).code[s.top.ip] == op && (op == LVAR || op == SVAR || op == TUPLE || op == LIST)
    ensures AllDisciplined(p, WorldStep(p, op, s.callers, s.top, s.regs, s.w))
  {
    hide CodeMark, CodeOf, FitsBytes, AllDisciplined, GetAtDepth, SetAtDepth;
    match WorldStep(p, op, s.callers, s.top, s.regs, s.w)
    case Running(_, _, regs, w) => NextKeeps(p, s, 4, regs, w);
    case _ => NotRunning(p, WorldStep(p, op, s.callers, s.top, s.regs, s.w));
  }

  lemma JumpKeeps(p: Program, s: State, op: int)
    requires s.Running? && AllDisciplined(p, s) && s.top.ip < |Code(p, s.top).code|
    requires Code(p, s.top).code[s.top.ip] == op
    requires op == JMPF || op == JMPB || op == JMPIT || op == JMPIF || op == REGE || op == POPE
    ensures AllDisciplined(p, JumpStep(p, op, s.callers, s.top, s.regs, s.w))
    ensures JumpStep(p, op, s.callers, s.top, s.regs, s.w).Running?
  {
    hide CodeMark, CodeOf, FitsBytes;
    Flows(p, s.top);
    Marked(p.lay, s.top.m.code, JumpStep(p, op, s.callers, s.top, s.regs, s.w).top.ip);
  }

  lemma LeaveKeeps(p: Program, s: State, op: int)
    requires s.Running? && AllDisciplined(p, s) && s.top.ip < |Code(p, s.top).code|
    ensures AllDisciplined(p, LeaveStep(p, op, s.callers, s.top, s.regs, s.w))
  {
    hide CodeMark, CodeOf, FitsBytes, Deliver;
    var v := Get(s.regs, s.top.fp + At(Code(p, s.top).code, s.top.ip + 1));
    DeliverKeeps(p, s.callers, Ret(v), s.regs, s.w);
    if Target(s.w, s.top.m.closure).Some? {
      DeliverKeeps(p, s.callers, LongRet(v, Target(s.w, s.top.m.closure).value), s.regs, s.w);
    }
    if Wrap(p.env, v, s.w).Some? {
      var (x, w') := Wrap(p.env, v, s.w).value;
      DeliverKeeps(p, s.callers + [s.top], Unwind(x), s.regs, w');
    }
  }

  /** One step keeps every activation's handler stack equal to the try nodes around its instruction. */
  lemma StepKeeps(p: Program, s: State)
    requires FittingProgram(p) && StateOk(p, s) && AllDisciplined(p, s)
    ensures AllDisciplined(p, Step(p, s))
  {
    hide FittingProgram, StateOk, CodeMark, CodeOf, FitsBytes, Deliver, SendStep, WorldStep, JumpStep, LeaveStep,
         MoveStep;
    if s.Running? {
      var c := Code(p, s.top).code;
      if s.top.ip >= |c| {
        DeliverKeeps(p, s.callers, Ret(NilV), s.regs, s.w);
      } else {
        var op := c[s.top.ip];
        if op == SEND {
          CallKeeps(p, s);
        } else if op == LVAR || op == SVAR || op == TUPLE || op == LIST {
          WorldKeeps(p, s, op);
        } else if op == JMPF || op == JMPB || op == JMPIT || op == JMPIF || op == REGE || op == POPE {
          JumpKeeps(p, s, op);
        } else if op == RET || op == LRET || op == RAISE {
          LeaveKeeps(p, s, op);
        } else {
          MoveKeeps(p, s, op);
        }
      }
    }
  }

  lemma {:induction false} StaysDisciplined(p: Program, s: State, k: nat)
    requires FittingProgram(p) && StateOk(p, s) && AllDisciplined(p, s)
    ensures AllDisciplined(p, Steps(p, s, k))
    decreases k
  {
    hide Step, AllDisciplined, SaneRuntime, StateOk, CodeIn, FitsBytes;
    if k > 0 {
      StepKeeps(p, s);
      StepOk(p, s);
      StaysDisciplined(p, Step(p, s), k - 1);
    }
  }

  lemma StartDisciplined(p: Program, m: MethodRef, regs: Regs, fp: int, w: World)
    requires FitsBytes(p.lay, m.code)
    ensures AllDisciplined(p, Start(p, m, regs, fp, w))
  {
    hide CodeMark, CodeOf, FitsBytes;
    CodeFlows(p.lay, m.code);
  }

  /**
   From the start of any method object that exists, in every state of the run, finished or not: the handler stack of
   every activation is the list of the try nodes around the instruction it is at, innermost last.
   */
  lemma HandlersMatchTries(p: Program, m: MethodRef, regs: Regs, fp: int, w: World, k: nat)
    requires FittingProgram(p) && WorldOk(p, w) && MethodOk(p, w, m) && RegsOk(p, w, regs)
    ensures AllDisciplined(p, Steps(p, Start(p, m, regs, fp, w), k))
  {
    hide Step, AllDisciplined, SaneRuntime, StateOk, CodeIn, FitsBytes, MethodOk, RegsOk, CodeOf;
    MethodIn(p, w, m);
    StartOk(p, m, regs, fp, w);
    StartDisciplined(p, m, regs, fp, w);
    StaysDisciplined(p, Start(p, m, regs, fp, w), k);
  }

  /** A reached `POPE` never meets an empty handler stack, and every reached byte is an opcode. */
  lemma ReachedInstruction(p: Program, m: MethodRef, regs: Regs, fp: int, w: World, k: nat)
    requires FittingProgram(p) && WorldOk(p, w) && MethodOk(p, w, m) && RegsOk(p, w, regs)
    requires Steps(p, Start(p, m, regs, fp, w), k).Running?
    ensures var f := Steps(p, Start(p, m, regs, fp, w), k).top;
      0 <= f.ip && (f.ip < |Code(p, f).code| ==>
        InsnLen(Code(p, f).code[f.ip]) > 0 && (Code(p, f).code[f.ip] == POPE ==> f.es != []))
  {
    hide Step, Start, CodeMark, CodeOf, FitsBytes, FittingProgram, WorldOk, MethodOk, RegsOk;
    HandlersMatchTries(p, m, regs, fp, w, k);
    var f := Steps(p, Start(p, m, regs, fp, w), k).top;
    if f.ip < |Code(p, f).code| { Flows(p, f); }
  }

  /**
   An exception in a reached state goes to the innermost try around the instruction, with the
   exception in that try's register, and leaves the activation if there is none.
   */
  lemma ExceptionGoesToInnermostTry(p: Program, m: MethodRef, regs: Regs, fp: int, w: World, k: nat, e: nat,
                                    regs': Regs,
                                    w': World)
    requires FittingProgram(p) && WorldOk(p, w) && MethodOk(p, w, m) && RegsOk(p, w, regs)
    requires Steps(p, Start(p, m, regs, fp, w), k).Running?
    ensures var s1 := Steps(p, Start(p, m, regs, fp, w), k);
      var tries := CodeMark(p.lay, s1.top.m.code, s1.top.ip);
      tries.Some? &&
      Deliver(p, s1.callers + [s1.top], Unwind(e), regs', w') ==
      if tries.value == [] then Deliver(p, s1.callers, Unwind(e), regs', w')
      else
        var n := |tries.value| - 1;
        var h := tries.value[n];
        Running(s1.callers, s1.top.(ip := h.ip, es := tries.value[..n]), regs'[s1.top.fp + h.reg := ExcV(e)], w')
  {
    hide Step, Start, CodeMark, CodeOf, FitsBytes, FittingProgram, WorldOk, MethodOk, RegsOk;
    HandlersMatchTries(p, m, regs, fp, w, k);
    var s1 := Steps(p, Start(p, m, regs, fp, w), k);
    assert (s1.callers + [s1.top])[..|s1.callers|] == s1.callers;
  }
}
