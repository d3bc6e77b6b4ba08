/**
 `VM::run` as it is written: one loop per activation over its code, calling itself for every send,
 with the registers and closures changed in place. It takes exactly the steps of the machine.
 */
module VirtualMachine {
  import opened Ast
  import opened Emission
  import opened Machine

  /** How a run of an activation ends; `Stopped` when its budget of turns is used up. */
  datatype Ending = Returned(o: Outcome) | Failed | Stopped

  /** What one turn of the loop does to its activation. */
  datatype Turn = Goes(ip: int, es: seq<Handler>) | Leaves(o: Outcome) | Fails

  function Begin(p: Program, callers: seq<Frame>, m: MethodRef, fp: int, regs: Regs, w: World): State {
    Running(callers, Activation(m, fp, w), regs, WithClosure(p, m, w))
  }

  /** The state after a turn. */
  function After(p: Program, callers: seq<Frame>, f: Frame, t: Turn, regs: Regs, w: World): State {
    match t
    case Goes(ip, es) => Running(callers, f.(ip := ip, es := es), regs, w)
    case Leaves(o) => Deliver(p, callers, o, regs, w)
    case Fails => Crashed
  }

  class VM {
    const p: Program
    var regs: Regs
    var world: World
    var budget: nat

    constructor (p: Program, regs: Regs, world: World, budget: nat)
      ensures this.p == p && this.regs == regs && this.world == world && this.budget == budget
    {
      this.p, this.regs, this.world, this.budget := p, regs, world, budget;
    }

    /** `Closure::get_at_depth`. */
    method ReadClosure(clos: nat, depth: int, idx: int) returns (s: Slot)
      ensures s == GetAtDepth(world, clos, depth, idx)
    {
      var c: nat := clos;
      var dep := depth;
      while dep > 0
        invariant GetAtDepth(world, c, dep, idx) == GetAtDepth(world, clos, depth, idx)
      {
        if c >= |world.closures| { return BadSlot; }
        dep := dep - 1;
        if world.closures[c].parent.None? { return Holds(NilV); }
        c := world.closures[c].parent.value;
      }
      if c < |world.closures| && 0 <= idx < |world.closures[c].values| {
        s := Holds(world.closures[c].values[idx]);
      } else {
        s := BadSlot;
      }
    }

    /** `Closure::set_at_depth`. */
    method WriteClosure(clos: nat, depth: int, idx: int, v: Value) returns (ok: bool)
      modifies this`world
      ensures match SetAtDepth(old(world), clos, depth, idx, v)
        case Some(w') => ok && world == w'
        case None => !ok
    {
      var c: nat := clos;
      var dep := depth;
      while dep > 0
        invariant world == old(world) && SetAtDepth(world, c, dep, idx, v) == SetAtDepth(world, clos, depth, idx, v)
      {
        if c >= |world.closures| { return false; }
        dep := dep - 1;
        if world.closures[c].parent.None? { return true; }
        c := world.closures[c].parent.value;
      }
      ok := c < |world.closures| && 0 <= idx < |world.closures[c].values|;
      if ok {
        var q := world.closures[c];
        world := world.(closures := world.closures[c := q.(values := q.values[idx := v])]);
      }
    }

    /** `Method::return_to`. */
    method FindReturn(clos: nat) returns (target: Option<nat>)
      ensures target == Target(world, clos)
    {
      var c: nat := clos;
      var fuel: nat := |world.closures|;
      while c < |world.closures| && !world.closures[c].returnTo
        invariant ReturnTo(world, c, fuel) == Target(world, clos)
        decreases fuel
      {
        if fuel == 0 || world.closures[c].parent.None? { return None; }
        c := world.closures[c].parent.value;
        fuel := fuel - 1;
      }
      target := if c < |world.closures| then Some(c) else None;
    }

    /** An exception reaches an activation: the innermost handler takes it, or the activation ends. */
    method Catch(f: Frame, e: nat, ghost callers: seq<Frame>) returns (t: Turn)
      modifies this`regs
      ensures Deliver(p, callers + [f], Unwind(e), old(regs), world) == After(p, callers, f, t, regs, world)
    {
      assert (callers + [f])[..|callers|] == callers;
      if f.es == [] { return Leaves(Unwind(e)); }
      var h := f.es[|f.es| - 1];
      regs := regs[f.fp + h.reg := ExcV(e)];
      t := Goes(h.ip, f.es[..|f.es| - 1]);
    }

    /** `check_unwind`. */
    method CheckUnwind(f: Frame, o: Outcome, ghost callers: seq<Frame>) returns (t: Turn)
      modifies this`regs
      ensures Deliver(p, callers + [f], o, old(regs), world) == After(p, callers, f, t, regs, world)
    {
      hide CodeOf;
      assert (callers + [f])[..|callers|] == callers;
      match o
      case LongRet(v, target) => t := Leaves(if target == f.clos then Ret(v) else o);
      case Unwind(e) => t := Catch(f, e, callers);
      case Ret(v) =>
        regs := regs[f.fp + At(Code(p, f).code, f.ip + 1) := v];
        t := Goes(f.ip + 5, f.es);
    }

    /** The instructions that only write a register. */
    method Move(op: int, f: Frame, ghost callers: seq<Frame>) returns (t: Turn)
      modifies this`regs
      ensures MoveStep(p, op, callers, f, old(regs), world) == After(p, callers, f, t, regs, world)
    {
      hide CodeOf;
      var c, q := Code(p, f), f.ip;
      var a, b := At(c.code, q + 1), At(c.code, q + 2);
      var n := 3;
      if op == MOVI8 { regs := regs[f.fp + a := IntV(b)]; }
      else if op == MOVI32 {
        regs := regs[f.fp + a := IntV(WordValue(b, At(c.code, q + 3), At(c.code, q + 4), At(c.code, q + 5)))];
        n := 6;
      }
      else if op == MOVR { regs := regs[f.fp + a := Get(regs, f.fp + b)]; }
      else if op == MOVN { regs := regs[f.fp + a := NilV]; n := 2; }
      else if op == MOVT { regs := regs[f.fp + a := TrueV]; n := 2; }
      else if op == MOVF { regs := regs[f.fp + a := FalseV]; n := 2; }
      else if op == SELF { regs := regs[f.fp + a := Get(regs, f.fp - 1)]; n := 2; }
      else if op == NOT { regs := regs[f.fp + a := if Truthy(Get(regs, f.fp + b)) then FalseV else TrueV]; }
      else if op == LOADS && 0 <= b < |c.strs| { regs := regs[f.fp + a := StrV(c.strs[b])]; }
      else if op == LOADC && 0 <= b < |c.codes| { regs := regs[f.fp + a := MethodV(MethodRef(c.codes[b], f.clos))]; }
      else { return Fails; }
      t := Goes(q + n, f.es);
    }

    /** The instructions that read or change closures or the rest of the heap. */
    method Reach(op: int, f: Frame, ghost callers: seq<Frame>) returns (t: Turn)
      modifies this`regs, this`world
      ensures WorldStep(p, op, callers, f, old(regs), old(world)) == After(p, callers, f, t, regs, world)
    {
      var c, q := Code(p, f), f.ip;
      var a, b, d := At(c.code, q + 1), At(c.code, q + 2), At(c.code, q + 3);
      if op == LVAR {
        var s := ReadClosure(f.clos, b, d);
        if s.BadSlot? { return Fails; }
        regs := regs[f.fp + a := s.v];
      } else if op == SVAR {
        var ok := WriteClosure(f.clos, a, b, Get(regs, f.fp + SignedByte(d)));
        if !ok { return Fails; }
      } else {
        if d < 0 { return Fails; }
        var vs := Window(regs, f.fp + b, d);
        var (v, w') := if op == TUPLE then p.env.makeTuple(world, vs) else p.env.makeList(world, vs);
        regs, world := regs[f.fp + a := v], w';
      }
      t := Goes(q + 4, f.es);
    }

    /** The instructions that only choose the next instruction or change the handler stack. */
    method Jump(op: int, f: Frame, ghost callers: seq<Frame>) returns (t: Turn)
      ensures JumpStep(p, op, callers, f, regs, world) == After(p, callers, f, t, regs, world)
    {
      hide CodeOf;
      var c, q := Code(p, f), f.ip;
      var a, b := At(c.code, q + 1), At(c.code, q + 2);
      if op == JMPF { t := Goes(q + (2 + a), f.es); }
      else if op == JMPB { t := Goes(q + -a, f.es); }
      else if op == JMPIT { t := Goes(q + if Truthy(Get(regs, f.fp + a)) then 3 + b else 3, f.es); }
      else if op == JMPIF { t := Goes(q + if Truthy(Get(regs, f.fp + a)) then 3 else 3 + b, f.es); }
      else if op == REGE { t := Goes(q + 3, f.es + [Handler(a, b)]); }
      else if op == POPE && f.es != [] { t := Goes(q + 1, f.es[..|f.es| - 1]); }
      else { t := Fails; }
    }

    /** The instructions that leave the activation or look for a handler. */
    method Exit(op: int, f: Frame, ghost callers: seq<Frame>) returns (t: Turn)
      modifies this`regs, this`world
      ensures LeaveStep(p, op, callers, f, old(regs), old(world)) == After(p, callers, f, t, regs, world)
    {
      var v := Get(regs, f.fp + At(Code(p, f).code, f.ip + 1));
      if op == RET { return Leaves(Ret(v)); }
      if op == LRET {
        var target := FindReturn(f.m.closure);
        return if target.Some? then Leaves(LongRet(v, target.value)) else Fails;
      }
      var x := Wrap(p.env, v, world);
      if x.None? { return Fails; }
      world := x.value.1;
      t := Catch(f, x.value.0, callers);
    }

    /** Every instruction but `SEND`. */
    method Execute(f: Frame, ghost callers: seq<Frame>) returns (t: Turn)
      requires 0 <= f.ip < |Code(p, f).code| && Code(p, f).code[f.ip] != SEND
      modifies this`regs, this`world
      ensures Step(p, Running(callers, f, old(regs), old(world))) == After(p, callers, f, t, regs, world)
    {
      hide MoveStep, WorldStep, JumpStep, LeaveStep, After, Deliver;
      var op := Code(p, f).code[f.ip];
      if op == LVAR || op == SVAR || op == TUPLE || op == LIST { t := Reach(op, f, callers); }
      else if op == JMPF || op == JMPB || op == JMPIT || op == JMPIF || op == REGE || op == POPE {
        t := Jump(op, f, callers);
      }
      else if op == RET || op == LRET || op == RAISE { t := Exit(op, f, callers); }
      else { t := Move(op, f, callers); }
    }

    /** `run_method` for everything that does not start an activation; `None` for what does. */
    method Dispatch(f: Frame, name: string, recv: int, argc: nat, ghost callers: seq<Frame>)
      returns (o: Option<Outcome>, m: Option<MethodRef>)
      modifies this`regs, this`world
      ensures o.Some? <==> m.None?
      ensures match o
        case Some(x) => Call(p, callers, f, name, recv, argc, old(regs), old(world)) ==
                        Deliver(p, callers + [f], x, regs, world)
        case None => Call(p, callers, f, name, recv, argc, old(regs), old(world)) ==
                     Begin(p, callers + [f], m.value, f.fp + recv + 1, regs, world)
    {
      hide Deliver;
      var v := Get(regs, f.fp + recv);
      match p.env.find(world, v, name)
      case NotFound =>
        var (e, w') := p.env.missing(world, name);
        world := w';
        return Some(Unwind(e)), None;
      case Native =>
        var r := p.env.native(world, v, name, Window(regs, f.fp + recv + 1, argc));
        regs, world := Scribble(regs, f.fp + recv, r.scratch), r.w;
        return Some(r.o), None;
      case Bytecode(callee, checked) =>
        if checked && Arity(callee) > 0 && argc != Arity(callee) {
          var (e, w') := p.env.badArity(world, Arity(callee), argc);
          world := w';
          return Some(Unwind(e)), None;
        }
        return None, Some(callee);
    }

    /**
     `VM::run`: it spends a turn of the budget on every step of the machine, and hands its callers what
     the machine delivers to them.
     */
    method Run(m: MethodRef, fp: int, ghost callers: seq<Frame>) returns (r: Ending)
      modifies this
      ensures budget <= old(budget)
      ensures var s := Steps(p, Begin(p, callers, m, fp, old(regs), old(world)), old(budget) - budget);
        match r
        case Returned(o) => s == Deliver(p, callers, o, regs, world)
        case Failed => s == Crashed
        case Stopped => budget == 0 && s.Running?
      decreases budget
    {
      hide Step, Steps, Deliver, WithClosure, CodeOf, Call;
      ghost var s0 := Begin(p, callers, m, fp, regs, world);
      var f := Activation(m, fp, world);
      world := WithClosure(p, m, world);
      NoSteps(p, s0);
      var code := Code(p, f);
      while 0 <= f.ip < |code.code|
        invariant budget <= old(budget) && f.m == m
        invariant Steps(p, s0, old(budget) - budget) == Running(callers, f, regs, world)
        decreases budget
      {
        if budget == 0 { return Stopped; }
        ghost var k := old(budget) - budget;
        OneMore(p, s0, k);
        budget := budget - 1;
        var t: Turn;
        if code.code[f.ip] == SEND {
          var name, recv, argc := At(code.code, f.ip + 2), At(code.code, f.ip + 3), At(code.code, f.ip + 4);
          SendIsCall(p, callers, f, regs, world);
          if !(0 <= name < |code.strs| && 0 <= argc) { return Failed; }
          var o, callee := Dispatch(f, code.strs[name], recv, argc, callers);
          if o.None? {
            ghost var b1, s1 := budget, Begin(p, callers + [f], callee.value, f.fp + recv + 1, regs, world);
            var r1 := Run(callee.value, f.fp + recv + 1, callers + [f]);
            StepsAdd(p, s0, k + 1, b1 - budget);
            if !r1.Returned? { return r1; }
            o := Some(r1.o);
          }
          t := CheckUnwind(f, o.value, callers);
        } else {
          t := Execute(f, callers);
        }
        match t
        case Leaves(o) => return Returned(o);
        case Fails => return Failed;
        case Goes(ip, es) => f := f.(ip := ip, es := es);
      }
      if budget == 0 { return Stopped; }
      OneMore(p, s0, old(budget) - budget);
      PastTheEnd(p, callers, f, regs, world);
      budget := budget - 1;
      r := Returned(Ret(NilV));
    }
  }

  lemma NoSteps(p: Program, s: State)
    ensures Steps(p, s, 0) == s
  {}

  lemma OneMore(p: Program, s: State, k: nat)
    ensures Steps(p, s, k + 1) == Step(p, Steps(p, s, k))
  {
    hide Step;
    StepsAdd(p, s, k, 1);
    NoSteps(p, Step(p, Steps(p, s, k)));
  }

  lemma SendIsCall(p: Program, callers: seq<Frame>, f: Frame, regs: Regs, w: World)
    requires 0 <= f.ip < |Code(p, f).code| && Code(p, f).code[f.ip] == SEND
    ensures var c := Code(p, f);
      var name, recv, argc := At(c.code, f.ip + 2), At(c.code, f.ip + 3), At(c.code, f.ip + 4);
      Step(p, Running(callers, f, regs, w)) ==
      if 0 <= name < |c.strs| && 0 <= argc then Call(p, callers, f, c.strs[name], recv, argc, regs, w) else Crashed
  {
    hide Call, CodeOf;
  }

  lemma PastTheEnd(p: Program, callers: seq<Frame>, f: Frame, regs: Regs, w: World)
    requires !(0 <= f.ip < |Code(p, f).code|)
    ensures Step(p, Running(callers, f, regs, w)) == Deliver(p, callers, Ret(NilV), regs, w)
  {}
}
