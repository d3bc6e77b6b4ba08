/** A `return` in a block ends the activation of the method the block was written in. */
module NonLocalReturn {
  import opened Ast
  import opened Emission
  import opened Machine
  import opened RuntimeInvariant

  /** The closure `d` steps up the chain. */
  function Ancestor(w: World, c: nat, d: nat): (r: Option<nat>)
    ensures r.Some? ==> r.value < |w.closures|
    decreases d
  {
    if c >= |w.closures| then None
    else if d == 0 then Some(c)
    else
      match w.closures[c].parent
      case None => None
      case Some(q) => Ancestor(w, q, d - 1)
  }

  ghost predicate NoReturnBefore(w: World, c: nat, d: nat) {
    forall j :: 0 <= j < d && Ancestor(w, c, j).Some? ==> !w.closures[Ancestor(w, c, j).value].returnTo
  }

  /** `r` is the first closure on the chain from `c` that a `return` may end. */
  ghost predicate Nearest(w: World, c: nat, d: nat, r: nat) {
    Ancestor(w, c, d) == Some(r) && r < |w.closures| && w.closures[r].returnTo && NoReturnBefore(w, c, d)
  }

  ghost predicate Downward(w: World) {
    forall i :: 0 <= i < |w.closures| && w.closures[i].parent.Some? ==> w.closures[i].parent.value < i
  }

  /** `return_to` finds the first such closure, and fails its check exactly when there is none. */
  lemma {:induction false} ReturnToFinds(w: World, c: nat, fuel: nat) returns (d: nat)
    requires Downward(w) && c < |w.closures| && c <= fuel
    ensures match ReturnTo(w, c, fuel)
      case Some(r) => Nearest(w, c, d, r)
      case None => forall n :: NoReturnBefore(w, c, n)
    decreases fuel
  {
    d := 0;
    if !w.closures[c].returnTo {
      match w.closures[c].parent
      case None =>
        forall n: nat ensures NoReturnBefore(w, c, n) {
          forall j | 0 <= j < n && Ancestor(w, c, j).Some? ensures j == 0 {}
        }
      case Some(q) =>
        var e := ReturnToFinds(w, q, fuel - 1);
        d := e + 1;
        match ReturnTo(w, q, fuel - 1)
        case Some(r) => Extend(w, c, q, e);
        case None =>
          forall n: nat ensures NoReturnBefore(w, c, n) {
            if n > 0 { Extend(w, c, q, n - 1); }
          }
    }
  }

  lemma Extend(w: World, c: nat, q: nat, n: nat)
    requires c < |w.closures| && w.closures[c].parent == Some(q) && !w.closures[c].returnTo
    requires NoReturnBefore(w, q, n)
    ensures NoReturnBefore(w, c, n + 1)
  {
    forall j | 0 <= j < n + 1 && Ancestor(w, c, j).Some?
      ensures !w.closures[Ancestor(w, c, j).value].returnTo
    {
      if j > 0 { assert Ancestor(w, c, j) == Ancestor(w, q, j - 1); }
    }
  }

  lemma ClosuresDownward(p: Program, w: World)
    requires ClosuresOk(p, w)
    ensures Downward(w)
  {
    hide Inside, ValuesOk;
    forall i | 0 <= i < |w.closures| && w.closures[i].parent.Some? ensures w.closures[i].parent.value < i {
      assert ClosureOk(p, w, i);
    }
  }

  /** A non-local return ends the activation that runs with the target closure, whatever lies above it. */
  lemma {:induction false} EndsOwner(p: Program, frames: seq<Frame>, k: nat, v: Value, target: nat, regs: Regs,
                                     w: World)
    requires k < |frames| && frames[k].clos == target
    requires forall j :: k < j < |frames| ==> frames[j].clos != target
    ensures Deliver(p, frames, LongRet(v, target), regs, w) == Deliver(p, frames[..k], Ret(v), regs, w)
    decreases |frames|
  {
    hide CodeOf;
    var callers := frames[..|frames| - 1];
    if k < |callers| {
      EndsOwner(p, callers, k, v, target, regs, w);
      assert callers[..k] == frames[..k];
    }
  }

  /** If no activation runs with the target closure any more, the return leaves the outermost run. */
  lemma {:induction false} LeavesOutermost(p: Program, frames: seq<Frame>, v: Value, target: nat, regs: Regs, w: World)
    requires forall j :: 0 <= j < |frames| ==> frames[j].clos != target
    ensures Deliver(p, frames, LongRet(v, target), regs, w) == Done(LongRet(v, target), w)
    decreases |frames|
  {
    hide CodeOf;
    if frames != [] { LeavesOutermost(p, frames[..|frames| - 1], v, target, regs, w); }
  }

  /** The state stands at the `LRET` of a block. */
  ghost predicate AtBlockReturn(p: Program, s: State) {
    s.Running? && 0 <= s.top.ip < |Code(p, s.top).code| && Code(p, s.top).code[s.top.ip] == LRET
  }

  /**
   In every state of every run of a method object that exists: a `return` in a block names the nearest
   closure a method body was started with on the block's defining chain. If an activation on the stack
   owns that closure, it is the only one and runs a method body; the step ends it and all activations
   above it, and hands the value to its caller. If none does, the return propagates out of the
   outermost run. If the chain has no such closure the check in `return_to` fails.
   */
  lemma BlockReturn(p: Program, m: MethodRef, regs: Regs, fp: int, w: World, n: nat)
    requires SaneRuntime(p) && WorldOk(p, w) && MethodOk(p, w, m) && RegsOk(p, w, regs)
    requires AtBlockReturn(p, Steps(p, Start(p, m, regs, fp, w), n))
    ensures var s := Steps(p, Start(p, m, regs, fp, w), n);
      var v := Get(s.regs, s.top.fp + At(Code(p, s.top).code, s.top.ip + 1));
      match Target(s.w, s.top.m.closure)
      case None => Step(p, s) == Crashed && forall d :: NoReturnBefore(s.w, s.top.m.closure, d)
      case Some(r) =>
        (exists d: nat :: Nearest(s.w, s.top.m.closure, d, r)) &&
        (forall k :: 0 <= k < |s.callers| && s.callers[k].clos == r ==>
           s.callers[k].m.code.kind == Method && Step(p, s) == Deliver(p, s.callers[..k], Ret(v), s.regs, s.w)) &&
        (forall j, k :: 0 <= j < k < |s.callers| ==> !(s.callers[j].clos == s.callers[k].clos == r)) &&
        ((forall k :: 0 <= k < |s.callers| ==> s.callers[k].clos != r) ==> Step(p, s) == Done(LongRet(v, r), s.w))
  {
    hide Step, Deliver, SaneRuntime, StateOk, CodeOf, Nearest, NoReturnBefore, ReturnTo, Start, WorldOk, MethodOk,
         RegsOk;
    StartOk(p, m, regs, fp, w);
    AlwaysOk(p, Start(p, m, regs, fp, w), n);
    var s := Steps(p, Start(p, m, regs, fp, w), n);
    BlockReturnIn(p, s);
  }

  lemma BlockReturnIn(p: Program, s: State)
    requires StateOk(p, s) && AtBlockReturn(p, s)
    ensures var v := Get(s.regs, s.top.fp + At(Code(p, s.top).code, s.top.ip + 1));
      match Target(s.w, s.top.m.closure)
      case None => Step(p, s) == Crashed && forall d :: NoReturnBefore(s.w, s.top.m.closure, d)
      case Some(r) =>
        (exists d: nat :: Nearest(s.w, s.top.m.closure, d, r)) &&
        (forall k :: 0 <= k < |s.callers| && s.callers[k].clos == r ==>
           s.callers[k].m.code.kind == Method && Step(p, s) == Deliver(p, s.callers[..k], Ret(v), s.regs, s.w)) &&
        (forall j, k :: 0 <= j < k < |s.callers| ==> !(s.callers[j].clos == s.callers[k].clos == r)) &&
        ((forall k :: 0 <= k < |s.callers| ==> s.callers[k].clos != r) ==> Step(p, s) == Done(LongRet(v, r), s.w))
  {
    hide Deliver, CodeOf, Nearest, NoReturnBefore, ReturnTo, ClosureOk, RegsOk, MoveStep, WorldStep, JumpStep, Call;
    var v := Get(s.regs, s.top.fp + At(Code(p, s.top).code, s.top.ip + 1));
    var fs := s.callers + [s.top];
    ClosuresDownward(p, s.w);
    LastFrame(p, s.callers, s.top, s.w);
    ParentExists(p, s.w, s.top.clos);
    var d := ReturnToFinds(s.w, s.top.m.closure, |s.w.closures|);
    match Target(s.w, s.top.m.closure)
    case None =>
    case Some(r) =>
      assert forall i :: 0 <= i < |s.callers| ==> s.callers[i] == fs[i];
      forall k | 0 <= k < |s.callers| && s.callers[k].clos == r
        ensures s.callers[k].m.code.kind == Method && Step(p, s) == Deliver(p, s.callers[..k], Ret(v), s.regs, s.w)
      {
        NearestReturns(s.w, s.top.m.closure, d, r);
        OwnerKind(p, s.w, s.callers[k]);
        EndsOwner(p, s.callers, k, v, r, s.regs, s.w);
      }
      if forall k :: 0 <= k < |s.callers| ==> s.callers[k].clos != r {
        LeavesOutermost(p, s.callers, v, r, s.regs, s.w);
      }
  }

  lemma NearestReturns(w: World, c: nat, d: nat, r: nat)
    requires Nearest(w, c, d, r)
    ensures r < |w.closures| && w.closures[r].returnTo
  {}

  lemma ParentExists(p: Program, w: World, c: nat)
    requires ClosuresOk(p, w) && c < |w.closures| && w.closures[c].parent.Some?
    ensures w.closures[c].parent.value < |w.closures|
  {
    hide Inside, ValuesOk;
    assert ClosureOk(p, w, c);
  }

  /** A closure that a `return` may end belongs to an activation of a method body. */
  lemma OwnerKind(p: Program, w: World, f: Frame)
    requires ClosuresOk(p, w) && FrameOk(p, w, f) && w.closures[f.clos].returnTo
    ensures f.m.code.kind == Method
  {
    hide Inside, ValuesOk;
    assert ClosureOk(p, w, f.clos);
  }
}
