/**
 The code generator's state as the compiler changes it: one byte buffer that grows and whose label
 slots are filled in later. What it ends up with is the label-free form of Emission.dfy.
 */
module CodeGenerator {
  import opened Ast
  import opened Emission

  // ----- what is emitted does not depend on an unfilled label slot -----

  /** The same buffers, but for byte `l`. */
  ghost predicate Agree(b: Buf, b': Buf, l: nat) {
    |b.code| == |b'.code| && l < |b.code| && b.strs == b'.strs && b.codes == b'.codes &&
    forall i :: 0 <= i < |b.code| && i != l ==> b.code[i] == b'.code[i]
  }

  lemma PushAgree(b: Buf, b': Buf, l: nat, xs: seq<int>)
    requires Agree(b, b', l)
    ensures Agree(Push(b, xs), Push(b', xs), l)
  {}

  lemma OtherPushesAgree(b: Buf, b': Buf, l: nat, t: int, name: string, recv: int, argc: int, c: Template)
    requires Agree(b, b', l)
    ensures Agree(PushSend(b, t, name, recv, argc), PushSend(b', t, name, recv, argc), l)
    ensures Agree(PushLoadString(b, t, name), PushLoadString(b', t, name), l)
    ensures Agree(PushLoadCode(b, t, c), PushLoadCode(b', t, c), l)
  {}

  lemma PlacePushesAgree(b: Buf, b': Buf, l: nat, place: Option<Loc>, t: int)
    requires Agree(b, b', l)
    ensures Agree(PushGet(b, place, t), PushGet(b', place, t), l) &&
            Agree(PushSet(b, place, t), PushSet(b', place, t), l)
  {}

  lemma {:induction false} EmitAgrees(lay: Layout, blk: bool, e: Node, t: int, b: Buf, b': Buf, l: nat)
    requires Agree(b, b', l)
    ensures Agree(Emit(lay, blk, e, t, b), Emit(lay, blk, e, t, b'), l)
    decreases e, 1
  {
    hide Agree, Size, Push, PushSend, PushLoadString, PushLoadCode, PushGet, PushSet;
    match e
    case Seq(x, y) => TwoAgree(lay, blk, e, x, y, t, b, b', l, []);
    case And(x, y) => TwoAgree(lay, blk, e, x, y, t, b, b', l, [JMPIF, t, Size(lay, y)]);
    case Unless(x, y) => TwoAgree(lay, blk, e, x, y, t, b, b', l, [JMPIT, t, Size(lay, y)]);
    case IfCond(_, _, _) => IfAgrees(lay, blk, e, t, b, b', l);
    case While(x, y) =>
      var xs := [JMPIF, t, Size(lay, y) + 2];
      TwoAgree(lay, blk, e, x, y, t, b, b', l, xs);
      PushAgree(Emit(lay, blk, y, t, Push(Emit(lay, blk, x, t, b), xs)),
                Emit(lay, blk, y, t, Push(Emit(lay, blk, x, t, b'), xs)), l, [JMPB, Size(lay, x) + Size(lay, y) + 3]);
    case Tuple(args) =>
      EmitArgsAgrees(lay, blk, args, t, b, b', l);
      PushAgree(EmitArgs(lay, blk, args, t, b), EmitArgs(lay, blk, args, t, b'), l, [TUPLE, t, t, Count(args)]);
    case List(args) =>
      EmitArgsAgrees(lay, blk, args, t, b, b', l);
      PushAgree(EmitArgs(lay, blk, args, t, b), EmitArgs(lay, blk, args, t, b'), l, [LIST, t, t, Count(args)]);
    case Not(v) => OneAgrees(lay, blk, e, v, t, b, b', l, [NOT, t, t]);
    case Raise(v) => OneAgrees(lay, blk, e, v, t, b, b', l, [RAISE, t]);
    case Return(v) => OneAgrees(lay, blk, e, v, t, b, b', l, [if blk then LRET else RET, t]);
    case Try(_, _, _, _, _) => TryAgrees(lay, blk, e, t, b, b', l);
    case _ => NamesAgree(lay, blk, e, t, b, b', l);
  }

  lemma {:induction false} OneAgrees(lay: Layout, blk: bool, e: Node, v: Node, t: int, b: Buf, b': Buf, l: nat,
                                     xs: seq<int>)
    requires v < e && Agree(b, b', l)
    ensures Agree(Push(Emit(lay, blk, v, t, b), xs), Push(Emit(lay, blk, v, t, b'), xs), l)
    decreases e, 0, 0, 0
  {
    hide Agree, Emit;
    EmitAgrees(lay, blk, v, t, b, b', l);
    PushAgree(Emit(lay, blk, v, t, b), Emit(lay, blk, v, t, b'), l, xs);
  }

  lemma {:induction false} TwoAgree(lay: Layout, blk: bool, e: Node, x: Node, y: Node, t: int, b: Buf, b': Buf, l: nat,
                                    xs: seq<int>)
    requires x < e && y < e && Agree(b, b', l)
    ensures Agree(Emit(lay, blk, x, t, b), Emit(lay, blk, x, t, b'), l)
    ensures Agree(Emit(lay, blk, y, t, Push(Emit(lay, blk, x, t, b), xs)),
                  Emit(lay, blk, y, t, Push(Emit(lay, blk, x, t, b'), xs)), l)
    ensures xs == [] ==> Push(Emit(lay, blk, x, t, b), xs) == Emit(lay, blk, x, t, b)
    ensures xs == [] ==> Push(Emit(lay, blk, x, t, b'), xs) == Emit(lay, blk, x, t, b')
    decreases e, 0, 0
  {
    hide Agree, Emit;
    EmitAgrees(lay, blk, x, t, b, b', l);
    PushAgree(Emit(lay, blk, x, t, b), Emit(lay, blk, x, t, b'), l, xs);
    EmitAgrees(lay, blk, y, t, Push(Emit(lay, blk, x, t, b), xs), Push(Emit(lay, blk, x, t, b'), xs), l);
  }

  lemma {:induction false} IfAgrees(lay: Layout, blk: bool, e: Node, t: int, b: Buf, b': Buf, l: nat)
    requires e.IfCond? && Agree(b, b', l)
    ensures Agree(Emit(lay, blk, e, t, b), Emit(lay, blk, e, t, b'), l)
    decreases e, 0, 1
  {
    hide Agree, Size, Push;
    match e.ebody
    case None => TwoAgree(lay, blk, e, e.cond, e.body, t, b, b', l, [JMPIF, t, Size(lay, e.body)]);
    case Some(y) =>
      var xs := [JMPIF, t, Size(lay, e.body) + 2];
      TwoAgree(lay, blk, e, e.cond, e.body, t, b, b', l, xs);
      var c := Emit(lay, blk, e.body, t, Push(Emit(lay, blk, e.cond, t, b), xs));
      var c' := Emit(lay, blk, e.body, t, Push(Emit(lay, blk, e.cond, t, b'), xs));
      PushAgree(c, c', l, [JMPF, Size(lay, y)]);
      EmitAgrees(lay, blk, y, t, Push(c, [JMPF, Size(lay, y)]), Push(c', [JMPF, Size(lay, y)]), l);
  }

  lemma {:induction false} TryAgrees(lay: Layout, blk: bool, e: Node, t: int, b: Buf, b': Buf, l: nat)
    requires e.Try? && Agree(b, b', l)
    ensures Agree(Emit(lay, blk, e, t, b), Emit(lay, blk, e, t, b'), l)
    decreases e, 0, 1
  {
    hide Agree, Size, Push, TryTyped, TryBody;
    TryBodyAgrees(lay, blk, e, t, b, b', l);
    var c, c' := TryBody(lay, blk, e, t, b), TryBody(lay, blk, e, t, b');
    if e.excName.Some? && e.excType.Some? {
      TryTypedAgrees(lay, blk, e, t, c, c', l);
      OneAgrees(lay, blk, e, e.handler, t, TryTyped(lay, blk, e, t, c), TryTyped(lay, blk, e, t, c'), l,
                [JMPF, 2, RAISE, t]);
    } else {
      EmitAgrees(lay, blk, e.handler, t, c, c', l);
    }
  }

  lemma {:induction false} TryBodyAgrees(lay: Layout, blk: bool, e: Node, t: int, b: Buf, b': Buf, l: nat)
    requires e.Try? && Agree(b, b', l)
    ensures Agree(TryBody(lay, blk, e, t, b), TryBody(lay, blk, e, t, b'), l)
    decreases e, 0, 0, 1
  {
    hide Emit, Size;
    var xs := [REGE, t, |b.code| + Size(lay, e.body) + 6];
    PushAgree(b, b', l, xs);
    OneAgrees(lay, blk, e, e.body, t, Push(b, xs), Push(b', xs), l, [POPE, JMPF, HandlerSize(lay, e)]);
  }

  lemma {:induction false} TryTypedAgrees(lay: Layout, blk: bool, e: Node, t: int, b: Buf, b': Buf, l: nat)
    requires e.Try? && e.excName.Some? && e.excType.Some? && Agree(b, b', l)
    ensures Agree(TryTyped(lay, blk, e, t, b), TryTyped(lay, blk, e, t, b'), l)
    decreases e, 0, 0, 1
  {
    hide Emit, Agree, Push, PushSend, PushSet;
    var c, c' := Emit(lay, blk, e.excType.value, t + 1, b), Emit(lay, blk, e.excType.value, t + 1, b');
    OneAgrees(lay, blk, e, e.excType.value, t + 1, b, b', l, [MOVR, t + 2, t]);
    var d, d' := Push(c, [MOVR, t + 2, t]), Push(c', [MOVR, t + 2, t]);
    OtherPushesAgree(d, d', l, t + 1, "===", t + 1, 1, Template(Scope(0, [], None, Nil), Top));
    var f, f' := PushSend(d, t + 1, "===", t + 1, 1), PushSend(d', t + 1, "===", t + 1, 1);
    var xs := [JMPIF, t + 1, SetSize(lay.At(e.id)) + Size(lay, e.handler) + 2];
    PushAgree(f, f', l, xs);
    PlacePushesAgree(Push(f, xs), Push(f', xs), l, lay.At(e.id), t);
  }

  lemma {:induction false} NamesAgree(lay: Layout, blk: bool, e: Node, t: int, b: Buf, b': Buf, l: nat)
    requires e.Number? || e.Nil? || e.True? || e.False? || e.LiteralString? || e.Self? || e.Named? || e.Assign? ||
             e.AssignOp? || e.Send? || e.Lambda? || e.Def?
    requires Agree(b, b', l)
    ensures Agree(Emit(lay, blk, e, t, b), Emit(lay, blk, e, t, b'), l)
    decreases e, 0, 1
  {
    hide Agree, Size, Push, PushSend, PushLoadString, PushLoadCode, PushGet, PushSet;
    var nil := Template(Scope(0, [], None, Nil), Top);
    match e
    case Number(v) => PushAgree(b, b', l, NumberCode(v, t));
    case Nil => PushAgree(b, b', l, [MOVN, t]);
    case True => PushAgree(b, b', l, [MOVT, t]);
    case False => PushAgree(b, b', l, [MOVF, t]);
    case LiteralString(s) => OtherPushesAgree(b, b', l, t, s, 0, 0, nil);
    case Self(id) => PlacePushesAgree(b, b', l, lay.At(id), t);
    case Named(id, name) =>
      PushAgree(b, b', l, [SELF, t]);
      OtherPushesAgree(Push(b, [SELF, t]), Push(b', [SELF, t]), l, t, name, t, 0, nil);
      PlacePushesAgree(b, b', l, lay.At(id), t);
    case Assign(id, _, v) =>
      EmitAgrees(lay, blk, v, t, b, b', l);
      PlacePushesAgree(Emit(lay, blk, v, t, b), Emit(lay, blk, v, t, b'), l, lay.At(id), t);
    case AssignOp(_, _, _, _) => OperatorAgrees(lay, blk, e, t, b, b', l);
    case Send(_, _, _, _, _) => SendAgrees(lay, blk, e, t, b, b', l);
    case Lambda(s) => OtherPushesAgree(b, b', l, t, "", 0, 0, Template(s, Block));
    case Def(_, _) => DefAgrees(lay, blk, e, t, b, b', l);
  }

  lemma {:induction false} OperatorAgrees(lay: Layout, blk: bool, e: Node, t: int, b: Buf, b': Buf, l: nat)
    requires e.AssignOp? && Agree(b, b', l)
    ensures Agree(Emit(lay, blk, e, t, b), Emit(lay, blk, e, t, b'), l)
    decreases e, 0, 0
  {
    hide Agree, Size, Push, PushSend, PushLoadString, PushLoadCode, PushGet, PushSet;
    var nil := Template(Scope(0, [], None, Nil), Top);
    PlacePushesAgree(b, b', l, lay.At(e.id), t);
    var c, c' := PushGet(b, lay.At(e.id), t), PushGet(b', lay.At(e.id), t);
    EmitAgrees(lay, blk, e.value, t + 1, c, c', l);
    var d, d' := Emit(lay, blk, e.value, t + 1, c), Emit(lay, blk, e.value, t + 1, c');
    OtherPushesAgree(d, d', l, t, e.op, t, 1, nil);
    PlacePushesAgree(PushSend(d, t, e.op, t, 1), PushSend(d', t, e.op, t, 1), l, lay.At(e.id), t);
  }

  lemma {:induction false} SendAgrees(lay: Layout, blk: bool, e: Node, t: int, b: Buf, b': Buf, l: nat)
    requires e.Send? && Agree(b, b', l)
    ensures Agree(Emit(lay, blk, e, t, b), Emit(lay, blk, e, t, b'), l)
    decreases e, 0, 0
  {
    hide Agree, Size, Push, PushSend, PushLoadString, PushLoadCode, PushGet, PushSet;
    var nil := Template(Scope(0, [], None, Nil), Top);
    var m := Markov(lay, e);
    PlacePushesAgree(b, b', l, lay.At(e.id), t);
    EmitAgrees(lay, blk, e.recv, t, b, b', l);
    var c := if m then PushGet(b, lay.At(e.id), t) else Emit(lay, blk, e.recv, t, b);
    var c' := if m then PushGet(b', lay.At(e.id), t) else Emit(lay, blk, e.recv, t, b');
    EmitArgsAgrees(lay, blk, e.args, t + 1, c, c', l);
    OtherPushesAgree(EmitArgs(lay, blk, e.args, t + 1, c), EmitArgs(lay, blk, e.args, t + 1, c'), l, t,
                     if m then "apply" else e.name, t, Count(e.args), nil);
  }

  lemma {:induction false} DefAgrees(lay: Layout, blk: bool, e: Node, t: int, b: Buf, b': Buf, l: nat)
    requires e.Def? && Agree(b, b', l)
    ensures Agree(Emit(lay, blk, e, t, b), Emit(lay, blk, e, t, b'), l)
    decreases e, 0, 0
  {
    hide Agree, Size, Push, PushSend, PushLoadString, PushLoadCode, PushGet, PushSet;
    var nil := Template(Scope(0, [], None, Nil), Top);
    PushAgree(b, b', l, [SELF, t]);
    var c, c' := Push(b, [SELF, t]), Push(b', [SELF, t]);
    OtherPushesAgree(c, c', l, t + 1, e.name, 0, 0, nil);
    var d, d' := PushLoadString(c, t + 1, e.name), PushLoadString(c', t + 1, e.name);
    OtherPushesAgree(d, d', l, t + 2, "", 0, 0, Template(e.scope, Method));
    OtherPushesAgree(PushLoadCode(d, t + 2, Template(e.scope, Method)),
                     PushLoadCode(d', t + 2, Template(e.scope, Method)), l, t, "add_method", t, 2, nil);
  }

  lemma {:induction false} EmitArgsAgrees(lay: Layout, blk: bool, es: Nodes, t: int, b: Buf, b': Buf, l: nat)
    requires Agree(b, b', l)
    ensures Agree(EmitArgs(lay, blk, es, t, b), EmitArgs(lay, blk, es, t, b'), l)
    decreases es, 1
  {
    hide Agree, Emit;
    match es
    case NoNodes =>
    case More(e, rest) =>
      EmitAgrees(lay, blk, e, t, b, b', l);
      EmitArgsAgrees(lay, blk, rest, t + 1, Emit(lay, blk, e, t, b), Emit(lay, blk, e, t, b'), l);
  }

  /** Filling the slot makes the buffers the same. */
  lemma Filled(b: Buf, b': Buf, l: nat, x: int)
    requires Agree(b, b', l) && b.code[l] == x
    ensures b'.(code := b'.code[l := x]) == b
  {}

  /** Code emitted after an unfilled slot, once that is filled. */
  lemma FilledLater(lay: Layout, blk: bool, y: Node, t: int, b: Buf, op: int, r: int, x: int)
    ensures var l := |b.code| + 2;
      var c' := Emit(lay, blk, y, t, Push(b, [op, r, 0]));
      |c'.code| == |b.code| + 3 + Size(lay, y) &&
      c'.(code := c'.code[l := x]) == Emit(lay, blk, y, t, Push(b, [op, r, x]))
  {
    hide Emit, Size;
    var c, d := Push(b, [op, r, x]), Push(b, [op, r, 0]);
    var l := |b.code| + 2;
    assert Agree(c, d, l);
    EmitAgrees(lay, blk, y, t, c, d, l);
    EmitGrows(lay, blk, y, t, c);
    EmitGrows(lay, blk, y, t, d);
    assert c.code[l] == x;
    Filled(Emit(lay, blk, y, t, c), Emit(lay, blk, y, t, d), l, x);
  }

  /** A loop, its exit filled in after its body. */
  lemma LoopFilled(lay: Layout, blk: bool, e: Node, t: int, b: Buf)
    requires e.While?
    ensures var b1 := Emit(lay, blk, e.cond, t, b);
      var b2, l := Emit(lay, blk, e.body, t, Push(Push(b1, [JMPIF, t]), [0])), |b1.code| + 2;
      |b1.code| == |b.code| + Size(lay, e.cond) && |b2.code| == |b1.code| + 3 + Size(lay, e.body) &&
      Emit(lay, blk, e, t, b) ==
      Push(b2.(code := b2.code[l := Size(lay, e.body) + 2]), [JMPB, Size(lay, e.cond) + Size(lay, e.body) + 3])
  {
    hide Size;
    var b1 := Emit(lay, blk, e.cond, t, b);
    EmitGrows(lay, blk, e.cond, t, b);
    FilledLater(lay, blk, e.body, t, b1, JMPIF, t, Size(lay, e.body) + 2);
    assert Push(Push(b1, [JMPIF, t]), [0]) == Push(b1, [JMPIF, t, 0]);
  }

  /** The jump over the handler is filled in only after the handler. */
  lemma FilledHandler(lay: Layout, blk: bool, e: Node, t: int, b: Buf)
    requires e.Try?
    ensures var h, c := |b.code| + 2, Push(Emit(lay, blk, e.body, t, Push(b, [REGE, t, 0])), [POPE, JMPF, 0]);
      |c.code| == |b.code| + Size(lay, e.body) + 6 &&
      Agree(TryBody(lay, blk, e, t, b), c.(code := c.code[h := |c.code|]), |c.code| - 1) &&
      TryBody(lay, blk, e, t, b).code[|c.code| - 1] == HandlerSize(lay, e)
  {
    hide Emit, Size;
    var xs, ys := [REGE, t, |b.code| + Size(lay, e.body) + 6], [REGE, t, 0];
    var l := |b.code| + 2;
    assert Agree(Push(b, xs), Push(b, ys), l);
    EmitAgrees(lay, blk, e.body, t, Push(b, xs), Push(b, ys), l);
    EmitGrows(lay, blk, e.body, t, Push(b, xs));
    assert Push(b, xs).code[l] == |b.code| + Size(lay, e.body) + 6;
  }

  // ----- the generator -----

  lemma NarrowPush(xs: seq<int>, x: int)
    ensures Narrow(xs + [x]) == Narrow(xs) + [Byte(x)]
  {}

  lemma NarrowFill(xs: seq<int>, l: nat, x: int)
    requires l < |xs|
    ensures Narrow(xs[l := x]) == Narrow(xs)[l := Byte(x)]
  {}

  /** `ast::State`. `raw` is what the buffer would hold if an instruction were not one byte. */
  class State {
    const lay: Layout
    const lambda: bool
    var buffer: seq<int>
    var strings: seq<string>
    var codes: seq<Template>
    ghost var raw: Buf

    ghost predicate Valid()
      reads this
    {
      buffer == Narrow(raw.code) && strings == raw.strs && codes == raw.codes
    }

    constructor (lay: Layout, lambda: bool)
      ensures Valid() && raw == Empty && this.lay == lay && this.lambda == lambda
    {
      this.lay, this.lambda := lay, lambda;
      buffer, strings, codes := [], [], [];
      raw := Empty;
    }

    method PushByte(i: int)
      requires Valid()
      modifies this
      ensures Valid() && raw == Push(old(raw), [i])
    {
      NarrowPush(raw.code, i);
      buffer := buffer + [Byte(i)];
      raw := Push(raw, [i]);
    }

    method PushAll(xs: seq<int>)
      requires Valid()
      modifies this
      ensures Valid() && raw == Push(old(raw), xs)
    {
      for k := 0 to |xs|
        invariant Valid() && raw == Push(old(raw), xs[..k])
      {
        PushByte(xs[k]);
      }
    }

    method String(s: string) returns (i: int)
      requires Valid()
      modifies this
      ensures Valid() && i == |old(raw).strs| && raw == old(raw).(strs := old(raw).strs + [s])
    {
      i := |strings|;
      strings := strings + [s];
      raw := raw.(strs := raw.strs + [s]);
    }

    method Code(c: Template) returns (i: int)
      requires Valid()
      modifies this
      ensures Valid() && i == |old(raw).codes| && raw == old(raw).(codes := old(raw).codes + [c])
    {
      i := |codes|;
      codes := codes + [c];
      raw := raw.(codes := raw.codes + [c]);
    }

    method SendTo(t: int, name: string, recv: int, argc: int)
      requires Valid()
      modifies this
      ensures Valid() && raw == PushSend(old(raw), t, name, recv, argc)
    {
      PushAll([SEND, t]);
      var i := String(name);
      PushAll([i, recv, argc]);
    }

    method LoadString(t: int, s: string)
      requires Valid()
      modifies this
      ensures Valid() && raw == PushLoadString(old(raw), t, s)
    {
      PushAll([LOADS, t]);
      var i := String(s);
      PushByte(i);
    }

    method LoadCode(t: int, c: Template)
      requires Valid()
      modifies this
      ensures Valid() && raw == PushLoadCode(old(raw), t, c)
    {
      PushAll([LOADC, t]);
      var i := Code(c);
      PushByte(i);
    }

    /** `label`, with the placeholder byte that every caller pushes after it. */
    method Label() returns (l: nat)
      requires Valid()
      modifies this
      ensures Valid() && l == |old(raw).code| && raw == Push(old(raw), [0])
    {
      l := |buffer|;
      PushByte(0);
    }

    method SetLabel(l: nat)
      requires Valid() && l < |raw.code|
      modifies this
      ensures Valid() && raw == old(raw).(code := old(raw).code[l := |old(raw).code| - l - 1])
    {
      NarrowFill(raw.code, l, |buffer| - l - 1);
      buffer := buffer[l := Byte(|buffer| - l - 1)];
      raw := raw.(code := raw.code[l := |raw.code| - l - 1]);
    }

    method SetLabelAbs(l: nat)
      requires Valid() && l < |raw.code|
      modifies this
      ensures Valid() && raw == old(raw).(code := old(raw).code[l := |old(raw).code|])
    {
      NarrowFill(raw.code, l, |buffer|);
      buffer := buffer[l := Byte(|buffer|)];
      raw := raw.(code := raw.code[l := |raw.code|]);
    }

    method SetLocal(place: Option<Loc>, t: int)
      requires Valid()
      modifies this
      ensures Valid() && raw == PushSet(old(raw), place, t)
    {
      match place
      case None =>
      case Some(Reg(r)) => PushAll([MOVR, r, t]);
      case Some(Clo(d, i)) => PushAll([SVAR, d, i, Byte(t)]);
    }

    method GetLocal(place: Option<Loc>, t: int)
      requires Valid()
      modifies this
      ensures Valid() && raw == PushGet(old(raw), place, t)
    {
      match place
      case None =>
      case Some(Reg(r)) => if r == -1 { PushAll([SELF, t]); } else { PushAll([MOVR, t, r]); }
      case Some(Clo(d, i)) => PushAll([LVAR, t, d, i]);
    }

    /** `drive` of every node. */
    method Drive(e: Node, t: int)
      requires Valid()
      modifies this
      ensures Valid() && raw == Emit(lay, lambda, e, t, old(raw))
      decreases e, 1
    {
      hide Valid, Push, PushGet, PushSet, PushSend, PushLoadString, PushLoadCode, Size, NumberCode;
      match e
      case Seq(x, y) =>
        Drive(x, t);
        Drive(y, t);
      case Assign(id, _, v) =>
        Drive(v, t);
        SetLocal(lay.At(id), t);
      case AssignOp(_, _, _, _) => DriveOperator(e, t);
      case Not(_) => DriveUnary(e, t);
      case And(x, y) => DriveGuarded(x, JMPIF, y, t, e);
      case Unless(x, y) => DriveGuarded(x, JMPIT, y, t, e);
      case IfCond(x, y, None) => DriveGuarded(x, JMPIF, y, t, e);
      case IfCond(_, _, Some(_)) => DriveIfElse(e, t);
      case While(_, _) => DriveWhile(e, t);
      case Tuple(_) => DriveCollection(e, t);
      case List(_) => DriveCollection(e, t);
      case Send(_, _, _, _, _) => DriveSend(e, t);
      case Raise(_) => DriveUnary(e, t);
      case Try(_, _, _, _, _) => DriveTry(e, t);
      case Return(_) => DriveUnary(e, t);
      case _ => DriveLeaf(e, t);
    }

    method DriveOperator(e: Node, t: int)
      requires Valid() && e.AssignOp?
      modifies this
      ensures Valid() && raw == Emit(lay, lambda, e, t, old(raw))
      decreases e, 0
    {
      hide Valid, Push, PushGet, PushSet, PushSend, Size;
      GetLocal(lay.At(e.id), t);
      Drive(e.value, t + 1);
      SendTo(t, e.op, t, 1);
      SetLocal(lay.At(e.id), t);
    }

    method DriveUnary(e: Node, t: int)
      requires Valid() && (e.Not? || e.Raise? || e.Return?)
      modifies this
      ensures Valid() && raw == Emit(lay, lambda, e, t, old(raw))
      decreases e, 0
    {
      hide Valid, Push, Size;
      Drive(e.value, t);
      if e.Not? {
        PushAll([NOT, t, t]);
      } else if e.Raise? {
        PushAll([RAISE, t]);
      } else {
        PushAll([if lambda then LRET else RET, t]);
      }
    }

    method DriveCollection(e: Node, t: int)
      requires Valid() && (e.Tuple? || e.List?)
      modifies this
      ensures Valid() && raw == Emit(lay, lambda, e, t, old(raw))
      decreases e, 0
    {
      hide Valid, Push, Size;
      DriveArgs(e.args, t);
      PushAll([if e.Tuple? then TUPLE else LIST, t, t, Count(e.args)]);
    }

    method DriveSend(e: Node, t: int)
      requires Valid() && e.Send?
      modifies this
      ensures Valid() && raw == Emit(lay, lambda, e, t, old(raw))
      decreases e, 0
    {
      hide Valid, Push, PushGet, PushSend, Size;
      if e.selfLess && lay.At(e.id).Some? {
        GetLocal(lay.At(e.id), t);
        DriveArgs(e.args, t + 1);
        SendTo(t, "apply", t, Count(e.args));
      } else {
        Drive(e.recv, t);
        DriveArgs(e.args, t + 1);
        SendTo(t, e.name, t, Count(e.args));
      }
    }

    /** Constants, names and nested scopes. */
    method DriveLeaf(e: Node, t: int)
      requires Valid() &&
               (e.Number? || e.Nil? || e.True? || e.False? || e.LiteralString? || e.Self? || e.Named? || e.Lambda? ||
                e.Def?)
      modifies this
      ensures Valid() && raw == Emit(lay, lambda, e, t, old(raw))
      decreases e, 0
    {
      hide Valid, Push, PushGet, PushSet, PushSend, PushLoadString, PushLoadCode, Size, NumberCode;
      match e
      case Number(v) => PushAll(NumberCode(v, t));
      case Nil => PushAll([MOVN, t]);
      case True => PushAll([MOVT, t]);
      case False => PushAll([MOVF, t]);
      case LiteralString(s) => LoadString(t, s);
      case Self(id) => GetLocal(lay.At(id), t);
      case Named(id, name) =>
        if lay.At(id).Some? {
          GetLocal(lay.At(id), t);
        } else {
          PushAll([SELF, t]);
          SendTo(t, name, t, 0);
        }
      case Lambda(s) => LoadCode(t, Template(s, Block));
      case Def(name, s) =>
        PushAll([SELF, t]);
        LoadString(t + 1, name);
        LoadCode(t + 2, Template(s, Method));
        SendTo(t, "add_method", t, 2);
    }

    /** A condition, a jump to a label, and the code the jump skips. */
    method DriveGuarded(x: Node, op: int, y: Node, t: int, ghost e: Node)
      requires Valid() && x < e && y < e
      modifies this
      ensures Valid()
      ensures raw == Emit(lay, lambda, y, t, Push(Emit(lay, lambda, x, t, old(raw)), [op, t, Size(lay, y)]))
      decreases e, 0
    {
      Drive(x, t);
      ghost var b1 := raw;
      PushAll([op, t]);
      var l := Label();
      assert raw == Push(b1, [op, t, 0]);
      Drive(y, t);
      FilledLater(lay, lambda, y, t, b1, op, t, Size(lay, y));
      SetLabel(l);
    }

    method DriveArgs(es: Nodes, t: int)
      requires Valid()
      modifies this
      ensures Valid() && raw == EmitArgs(lay, lambda, es, t, old(raw))
      decreases es, 1
    {
      match es
      case NoNodes =>
      case More(e, rest) =>
        Drive(e, t);
        DriveArgs(rest, t + 1);
    }

    method DriveIfElse(e: Node, t: int)
      requires Valid() && e.IfCond? && e.ebody.Some?
      modifies this
      ensures Valid() && raw == Emit(lay, lambda, e, t, old(raw))
      decreases e, 0
    {
      var y := e.ebody.value;
      Drive(e.cond, t);
      ghost var b1 := raw;
      var l2 := DriveBody(e, t);
      ghost var b3 := Emit(lay, lambda, e.body, t, Push(b1, [JMPIF, t, Size(lay, e.body) + 2]));
      Drive(y, t);
      FilledJump(lay, lambda, y, t, b3, Size(lay, y));
      SetLabel(l2);
    }

    /** The first branch of a conditional with two, up to the jump over the second. */
    method DriveBody(e: Node, t: int) returns (l2: nat)
      requires Valid() && e.IfCond?
      modifies this
      ensures var b := Emit(lay, lambda, e.body, t, Push(old(raw), [JMPIF, t, Size(lay, e.body) + 2]));
        Valid() && raw == Push(b, [JMPF, 0]) && l2 == |b.code| + 1
      decreases e, 0, 0
    {
      hide Valid, Emit, Size;
      ghost var b1 := raw;
      PushAll([JMPIF, t]);
      var l := Label();
      assert raw == Push(b1, [JMPIF, t, 0]);
      Drive(e.body, t);
      ghost var b2 := raw;
      PushByte(JMPF);
      l2 := Label();
      FilledLater(lay, lambda, e.body, t, b1, JMPIF, t, Size(lay, e.body) + 2);
      SetLabel(l);
      assert raw.code == b2.code[l := Size(lay, e.body) + 2] + [JMPF, 0];
    }

    method DriveWhile(e: Node, t: int)
      requires Valid() && e.While?
      modifies this
      ensures Valid() && raw == Emit(lay, lambda, e, t, old(raw))
      decreases e, 0
    {
      hide Size, Emit, Valid;
      BufferLength();
      var top := |buffer|;
      Drive(e.cond, t);
      PushAll([JMPIF, t]);
      var l := Label();
      LoopFilled(lay, lambda, e, t, old(raw));
      Drive(e.body, t);
      ghost var b2 := raw;
      PushByte(JMPB);
      BufferLength();
      PushByte(|buffer| - top - 1);
      SetLabel(l);
      assert raw.code == b2.code[l := Size(lay, e.body) + 2] + [JMPB, Size(lay, e.cond) + Size(lay, e.body) + 3];
    }

    lemma BufferLength()
      requires Valid()
      ensures |buffer| == |raw.code|
    {}

    method DriveTry(e: Node, t: int)
      requires Valid() && e.Try?
      modifies this
      ensures Valid() && raw == Emit(lay, lambda, e, t, old(raw))
      decreases e, 0
    {
      hide Valid, Agree, Size, TryBody, TryTyped;
      ghost var b0 := raw;
      var b := DriveProtected(e, t);
      ghost var b2, b2' := TryBody(lay, lambda, e, t, b0), raw;
      if e.excName.Some? && e.excType.Some? {
        DriveTyped(e, t);
        TryTypedAgrees(lay, lambda, e, t, b2, b2', b);
        OneAgrees(lay, lambda, e, e.handler, t, TryTyped(lay, lambda, e, t, b2), TryTyped(lay, lambda, e, t, b2'), b,
                  [JMPF, 2, RAISE, t]);
      } else {
        Drive(e.handler, t);
        EmitAgrees(lay, lambda, e.handler, t, b2, b2', b);
      }
      FillsHandler(lay, lambda, e, t, b0, raw, b);
      SetLabel(b);
    }

    /** The protected body of a `try`, up to the unfilled jump over its handler. */
    method DriveProtected(e: Node, t: int) returns (b: nat)
      requires Valid() && e.Try?
      modifies this
      ensures Valid() && Agree(TryBody(lay, lambda, e, t, old(raw)), raw, b)
      ensures b == |old(raw).code| + Size(lay, e.body) + 5
      decreases e, 0, 0
    {
      hide Valid, Agree, Size, TryBody, Emit;
      ghost var b0 := raw;
      PushAll([REGE, t]);
      var h := Label();
      assert raw == Push(b0, [REGE, t, 0]);
      Drive(e.body, t);
      ghost var b1 := raw;
      PushByte(POPE);
      PushByte(JMPF);
      b := Label();
      assert raw == Push(b1, [POPE, JMPF, 0]);
      FilledHandler(lay, lambda, e, t, b0);
      EmitGrows(lay, lambda, e.body, t, Push(b0, [REGE, t, 0]));
      SetLabelAbs(h);
    }

    /** The handler of a typed `try`. */
    method DriveTyped(e: Node, t: int)
      requires Valid() && e.Try? && e.excName.Some? && e.excType.Some?
      modifies this
      ensures Valid()
      ensures raw == Push(Emit(lay, lambda, e.handler, t, TryTyped(lay, lambda, e, t, old(raw))), [JMPF, 2, RAISE, t])
      decreases e, 0, 1
    {
      hide Valid, Size, Emit;
      Drive(e.excType.value, t + 1);
      PushAll([MOVR, t + 2, t]);
      SendTo(t + 1, "===", t + 1, 1);
      DriveTested(e, t);
    }

    /** The test of a typed handler, the handler, and raising the exception again. */
    method DriveTested(e: Node, t: int)
      requires Valid() && e.Try?
      modifies this
      ensures var x := SetSize(lay.At(e.id)) + Size(lay, e.handler) + 2;
        Valid() && raw == Push(Emit(lay, lambda, e.handler, t,
          PushSet(Push(old(raw), [JMPIF, t + 1, x]), lay.At(e.id), t)), [JMPF, 2, RAISE, t])
      decreases e, 0, 0
    {
      hide Valid, Size, Emit, PushSet;
      ghost var b1 := raw;
      PushAll([JMPIF, t + 1]);
      var p := Label();
      assert raw == Push(b1, [JMPIF, t + 1, 0]);
      SetLocal(lay.At(e.id), t);
      Drive(e.handler, t);
      ghost var b2 := raw;
      PushByte(JMPF);
      var a := Label();
      FilledTest(lay, lambda, e, t, b1);
      SetLabel(p);
      ghost var x := SetSize(lay.At(e.id)) + Size(lay, e.handler) + 2;
      ghost var b3 := b2.(code := b2.code[p := x]);
      assert raw == Push(b3, [JMPF, 0]);
      PushAll([RAISE, t]);
      assert raw == Push(b3, [JMPF, 0, RAISE, t]);
      SetLabel(a);
      assert raw == Push(b3, [JMPF, 2, RAISE, t]);
    }

    /** The code of a scope: captured arguments, body, and, but for a file, the final return. */
    method Compile(s: Scope, kind: Kind)
      requires Valid() && raw == Empty && lambda == (kind == Block)
      modifies this
      ensures Valid() && raw == RawCode(lay, Template(s, kind))
      ensures Buf(buffer, strings, codes) == CodeOf(lay, Template(s, kind))
    {
      if s.self.Some? { DriveArgument(s.self.value, -1); }
      ghost var b := raw;
      for i := 0 to |s.args|
        invariant Valid() && EmitArguments(lay, s.args, i, raw) == EmitArguments(lay, s.args, 0, b)
      {
        DriveArgument(s.args[i], i);
      }
      var t := TempBase(lay, s, kind);
      Drive(s.body, t);
      if kind != Top { PushAll([RET, t]); }
    }

    method DriveArgument(a: Argument, position: int)
      requires Valid()
      modifies this
      ensures Valid() && raw == EmitArgument(lay, a, position, old(raw))
    {
      var l := lay.At(a.id);
      if l.Some? && l.value.Clo? { SetLocal(l, position); }
    }
  }

  lemma FilledJump(lay: Layout, blk: bool, y: Node, t: int, b: Buf, x: int)
    ensures var l := |b.code| + 1;
      var c' := Emit(lay, blk, y, t, Push(b, [JMPF, 0]));
      |c'.code| == |b.code| + 2 + Size(lay, y) &&
      c'.(code := c'.code[l := x]) == Emit(lay, blk, y, t, Push(b, [JMPF, x]))
  {
    hide Emit, Size;
    var c, d := Push(b, [JMPF, x]), Push(b, [JMPF, 0]);
    var l := |b.code| + 1;
    assert Agree(c, d, l);
    EmitAgrees(lay, blk, y, t, c, d, l);
    EmitGrows(lay, blk, y, t, c);
    EmitGrows(lay, blk, y, t, d);
    assert c.code[l] == x;
    Filled(Emit(lay, blk, y, t, c), Emit(lay, blk, y, t, d), l, x);
  }

  /** The jump from a type test that failed. */
  lemma FilledTest(lay: Layout, blk: bool, e: Node, t: int, b: Buf)
    requires e.Try?
    ensures var place, x := lay.At(e.id), SetSize(lay.At(e.id)) + Size(lay, e.handler) + 2;
      var c' := Emit(lay, blk, e.handler, t, PushSet(Push(b, [JMPIF, t + 1, 0]), place, t));
      |c'.code| == |b.code| + 1 + x &&
      c'.(code := c'.code[|b.code| + 2 := x]) ==
      Emit(lay, blk, e.handler, t, PushSet(Push(b, [JMPIF, t + 1, x]), place, t))
  {
    hide Emit, Size;
    var place, x := lay.At(e.id), SetSize(lay.At(e.id)) + Size(lay, e.handler) + 2;
    var c, d := Push(b, [JMPIF, t + 1, x]), Push(b, [JMPIF, t + 1, 0]);
    var l := |b.code| + 2;
    assert Agree(c, d, l);
    assert c.code[l] == x;
    PlacePushesAgree(c, d, l, place, t);
    var f, g := PushSet(c, place, t), PushSet(d, place, t);
    EmitAgrees(lay, blk, e.handler, t, f, g, l);
    EmitGrows(lay, blk, e.handler, t, f);
    EmitGrows(lay, blk, e.handler, t, g);
    assert f.code[l] == x;
    Filled(Emit(lay, blk, e.handler, t, f), Emit(lay, blk, e.handler, t, g), l, x);
  }

  /** The slot left open in a protected body is filled in with the size of the handler. */
  lemma FillsHandler(lay: Layout, blk: bool, e: Node, t: int, b: Buf, c: Buf, l: nat)
    requires e.Try? && Agree(Emit(lay, blk, e, t, b), c, l) && l == |b.code| + Size(lay, e.body) + 5
    ensures l < |c.code| && c.(code := c.code[l := |c.code| - l - 1]) == Emit(lay, blk, e, t, b)
  {
    hide Emit, Size, Push, TryBody;
    EmitGrows(lay, blk, e, t, b);
    var d := Emit(lay, blk, e, t, b);
    Same(d);
    TryShape(lay, blk, e, t, b, d);
    FilledHandler(lay, blk, e, t, b);
    assert TryBody(lay, blk, e, t, b).code <= d.code;
    Filled(d, c, l, HandlerSize(lay, e));
  }

  lemma Same(b: Buf)
    ensures Extends(b, b)
  {}
}
