/**
 Scope analysis and compilation together: an analysed program does what its tree means, and in every state of every
 run its names lead to the slots of their variables.
 */
module ProgramCorrectness {
  import opened Ast
  import opened Emission
  import opened Machine
  import opened Evaluator
  import opened RuntimeInvariant
  import opened NonLocalReturn
  import opened Simulation
  import opened Correctness
  import opened ScopeTracker
  import opened ScopeAnalysis
  import opened RegisterAllocation
  import opened ClosureAddressing

  /** The program is the one file `top`, compiled as it was analysed. */
  ghost predicate Compiled(g: Setting, top: Scope, p: Program) {
    Orders(g) && WellFormed(top) && p.files == {top} && p.lay == LayoutOf(Analyse(g, top))
  }

  /**
   What the instructions can carry: literals loaded as written, one-byte operands, stores from registers that `SVAR` can
   name; and in a block, arguments captured only behind the last that stays in a register.
   */
  ghost predicate InLimits(st: Tracking, c: Template) {
    var lay, s := LayoutOf(st), c.scope;
    WellMade(s.body) && |s.args| <= 128 && FitsBytes(lay, c) && Storable(lay, s.body, TempBase(lay, s, c.kind)) &&
    (c.kind == Top ==> s.args == []) && (c.kind == Ast.Block ==> BlockInLimits(st, s))
  }

  ghost predicate BlockInLimits(st: Tracking, s: Scope) {
    s.id in st.locals && "self" !in st.locals[s.id] && OnlyLastCaptured(st.locals[s.id], |s.args|)
  }

  lemma {:induction false} NestedResolved(g: Setting, st: Tracking, top: Scope, p: Program, cs: seq<Template>)
    returns (stack: seq<nat>)
    requires ScopeResolved(g, st, top, [top.id]) && p.files == {top} && RuntimeInvariant.Nested(p, cs)
    ensures var s := cs[|cs| - 1].scope; ScopeResolved(g, st, s, stack + [s.id])
    decreases |cs|
  {
    hide ScopeResolved, Pool, CodeOf;
    var n := |cs| - 1;
    if n == 0 {
      stack := [];
      assert stack + [top.id] == [top.id];
    } else {
      assert RuntimeInvariant.Nested(p, cs[..n]);
      var outer := NestedResolved(g, st, top, p, cs[..n]);
      var s := cs[n - 1].scope;
      stack := outer + [s.id];
      ScopeBody(g, st, s, stack);
      CodePool(p.lay, cs[n - 1], cs[n]);
      PoolResolved(g, st, s.body, stack, cs[n]);
    }
  }

  /** Every code object of an analysed program is sound. */
  lemma CodeIsSound(g: Setting, top: Scope, p: Program, c: Template)
    requires Compiled(g, top, p) && CodeIn(p, c) && InLimits(Analyse(g, top), c)
    ensures SoundCode(p.lay, c)
  {
    hide Orders, WellFormed, Inv, Analyse, ScopeResolved, SoundCode, WellMade, FitsBytes, Storable, OnlyLastCaptured,
         TempBase, LayoutOf, CodeOf;
    var st := Analyse(g, top);
    AnalyseOk(g, top);
    var cs :| RuntimeInvariant.Nested(p, cs) && cs[|cs| - 1] == c;
    var stack := NestedResolved(g, st, top, p, cs);
    AnalysedIsSound(g, st, c.scope, stack, c.kind);
  }

  /** All code of the program is within the limits. */
  ghost predicate AllInLimits(g: Setting, top: Scope, p: Program) {
    forall c :: CodeIn(p, c) ==> InLimits(Analyse(g, top), c)
  }

  lemma CompiledIsSound(g: Setting, top: Scope, p: Program)
    requires Compiled(g, top, p) && AllInLimits(g, top, p) && SaneRuntime(p)
    ensures SoundProgram(p)
  {
    hide SaneRuntime, Compiled, Analyse, CodeIn, InLimits, SoundCode;
    forall c | CodeIn(p, c) ensures SoundCode(p.lay, c) { CodeIsSound(g, top, p, c); }
  }

  /**
   A program whose code is within the limits, analysed and compiled, in any sane runtime: for any method object that
   exists, run in any window with any arguments, the machine ends as the tree does, runs on as long as it does, and
   fails where it fails.
   */
  lemma ProgramCorrect(g: Setting, top: Scope, p: Program, m: MethodRef, regs: Regs, fp: int, argc: nat, w: World,
                       fuel: nat)
    requires Compiled(g, top, p) && AllInLimits(g, top, p) && SaneRuntime(p) && Startable(p, m, regs, w)
    ensures match Meaning(p, m, regs, fp, argc, w, fuel)
      case Came(o, w') => exists k: nat :: Steps(p, Start(p, m, regs, fp, w), k) == Done(o, w')
      case CallTimeout => Steps(p, Start(p, m, regs, fp, w), fuel).Running?
      case CallAbort => exists k: nat :: Steps(p, Start(p, m, regs, fp, w), k).Crashed?
      case CallJunk => true
  {
    hide Compiled, AllInLimits, SaneRuntime, Startable, SoundProgram, Step, Steps, Activate, WithClosure, Start;
    CompiledIsSound(g, top, p);
    CompilerCorrect(p, m, regs, fp, argc, w, fuel);
  }

  /**
   In every state of every run of an analysed program, for any node of the running code's scope that uses a name kept
   in a closure: the recorded depth leads to a closure, the recorded index is one of its slots, the slot is that of the
   variable of that name in the scope the closure was made for (or of that global), and `LVAR` reads and `SVAR` writes
   that slot and nothing else.
   */
  lemma NamesReachTheirSlots(g: Setting, top: Scope, p: Program, m: MethodRef, regs: Regs, fp: int, w: World, n: nat,
                             x: Node, d: int, i: int)
    returns (a: nat)
    requires Compiled(g, top, p) && GlobalsFit(g, p) && SaneRuntime(p) && Startable(p, m, regs, w)
    requires Steps(p, Start(p, m, regs, fp, w), n).Running?
    requires Contains(Steps(p, Start(p, m, regs, fp, w), n).top.m.code.scope.body, x) && !UseOf(x).NoUse?
    requires p.lay.At(UseOf(x).id) == Some(Clo(d, i))
    ensures var s := Steps(p, Start(p, m, regs, fp, w), n);
      0 <= d && Ancestor(s.w, s.top.clos, d) == Some(a) && SlotIs(g, Analyse(g, top), s.w, a, i, UseOf(x).name) &&
      GetAtDepth(s.w, s.top.clos, d, i) == Holds(s.w.closures[a].values[i]) &&
      forall v ::
        SetAtDepth(s.w, s.top.clos, d, i, v) ==
        Some(s.w.(closures := s.w.closures[a := s.w.closures[a].(values := s.w.closures[a].values[i := v])]))
  {
    hide Orders, WellFormed, Inv, Analyse, ScopeResolved, LayoutOf, SaneRuntime, StateOk, Step, Steps, Start, Contains,
         UseOf, SlotOf, GetAtDepth, SetAtDepth, Ancestor, GlobalsFit, WorldOk, MethodOk, RegsOk;
    AnalyseOk(g, top);
    StartOk(p, m, regs, fp, w);
    AlwaysOk(p, Start(p, m, regs, fp, w), n);
    var s := Steps(p, Start(p, m, regs, fp, w), n);
    a := NameHasSlot(g, Analyse(g, top), top, p, s.callers, s.top, s.regs, s.w, x, d, i);
    SlotAlone(s.w, s.top.clos, d, i, a);
  }
}
