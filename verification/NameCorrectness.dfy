/** Compiled programs run as their names say: lexical scoping, scope analysis, compiler and machine together. */
module NameCorrectness {
  import opened Ast
  import opened Emission
  import opened Machine
  import opened Evaluator
  import opened RuntimeInvariant
  import opened Correctness
  import opened ScopeTracker
  import opened ScopeAnalysis
  import opened ClosureAddressing
  import opened LexicalScoping
  import opened NameEvaluator
  import opened NamesAgree
  import opened ProgramCorrectness
  import RA = RegisterAllocation

  /** The file `top`, analysed and compiled within the limits, in a sane runtime that leaves variables alone. */
  ghost predicate Runnable(g: Setting, top: Scope, p: Program) {
    Compiled(g, top, p) && AllInLimits(g, top, p) && SaneRuntime(p) && Blind(p.env) && GlobalsFit(g, p) &&
    Injective(g.globals)
  }

  function WholeOf(g: Setting, top: Scope, p: Program): Whole { Whole(g, Analyse(g, top), top, p) }

  /** What the names of the program say about a run from `Start`. */
  function MeaningOfNames(g: Setting, top: Scope, p: Program, f: MethodRef, regs: Regs, fp: int, argc: nat, m: Memory,
                          fuel: nat): NameCall
  {
    RunName(Source(p.env, Depths(g.globals.Keys, top)), f, Get(regs, fp - 1), Window(regs, fp, argc), m, fuel)
  }

  lemma CodeHasRoom(g: Setting, top: Scope, p: Program, t: Template)
    requires Compiled(g, top, p) && CodeIn(p, t) && InLimits(Analyse(g, top), t)
    ensures Roomy(Analyse(g, top), t)
  {
    hide Orders, WellFormed, Inv, Analyse, ScopeResolved, RA.WellMade, FitsBytes, RA.Storable, RA.OnlyLastCaptured,
         TempBase, LayoutOf, CodeOf, RA.Settled;
    var st := Analyse(g, top);
    AnalyseOk(g, top);
    var cs :| RuntimeInvariant.Nested(p, cs) && cs[|cs| - 1] == t;
    var stack := NestedResolved(g, st, top, p, cs);
    RA.ScopeSettled(g, st, t.scope, stack + [t.scope.id], t.kind);
  }

  lemma RunnableProper(g: Setting, top: Scope, p: Program)
    requires Runnable(g, top, p)
    ensures Proper(WholeOf(g, top, p))
  {
    hide Orders, WellFormed, Inv, Analyse, ScopeResolved, SaneRuntime, Blind, SameDepths, Depths, CodeIn, InLimits,
         Roomy, LayoutOf, Injective;
    AnalyseOk(g, top);
    AnalysisIsLexical(g, top);
    forall t | CodeIn(p, t) ensures Roomy(Analyse(g, top), t) { CodeHasRoom(g, top, p, t); }
  }

  /** The evaluator over registers and slots does what the names say. */
  lemma MeaningFits(g: Setting, top: Scope, p: Program, f: MethodRef, regs: Regs, fp: int, argc: nat, w: World,
                    m: Memory, fuel: nat)
    requires Runnable(g, top, p) && Startable(p, f, regs, w)
    requires Alike(w, m.w) && Remembers(WholeOf(g, top, p), w, m.vars)
    ensures CallFits(WholeOf(g, top, p), w, m, Meaning(p, f, regs, fp, argc, w, fuel),
                     MeaningOfNames(g, top, p, f, regs, fp, argc, m, fuel))
  {
    hide Runnable, Proper, WorldOk, MethodOk, RegsOk, Activate, RunName, CallFits, Alike, Remembers, Depths, Analyse;
    RunnableProper(g, top, p);
    GetOk(p, w, regs, fp - 1);
    WindowOk(p, w, regs, fp, argc);
    RunFits(WholeOf(g, top, p), f, Get(regs, fp - 1), Window(regs, fp, argc), w, m, fuel);
  }

  /**
   A program runs as its names say. Whatever method object exists, run in any window with any arguments, from any
   world that holds the variables of `m`: if by its names the call ends, so does the machine, with that outcome, in
   a world that holds the variables it then has; if by its names it goes on, the machine goes on; if it fails, the
   machine fails.
   */
  lemma ProgramMeansNames(g: Setting, top: Scope, p: Program, f: MethodRef, regs: Regs, fp: int, argc: nat, w: World,
                          m: Memory, fuel: nat)
    requires Runnable(g, top, p) && Startable(p, f, regs, w)
    requires Alike(w, m.w) && Remembers(WholeOf(g, top, p), w, m.vars)
    ensures match MeaningOfNames(g, top, p, f, regs, fp, argc, m, fuel)
      case Comes(o, m') =>
        exists k: nat, w' :: Steps(p, Start(p, f, regs, fp, w), k) == Done(o, w') && Alike(w', m'.w) &&
          Remembers(WholeOf(g, top, p), w', m'.vars)
      case CallNoFuel => Steps(p, Start(p, f, regs, fp, w), fuel).Running?
      case CallFails => exists k: nat :: Steps(p, Start(p, f, regs, fp, w), k).Crashed?
      case CallUnset => true
  {
    hide AllInLimits, SaneRuntime, Startable, Step, Steps, Start, Alike, Remembers, MeaningOfNames, Meaning, Moved,
         WorldOk, OutcomeOk, Compiled, Blind, GlobalsFit, Injective;
    MeaningFits(g, top, p, f, regs, fp, argc, w, m, fuel);
    ProgramCorrect(g, top, p, f, regs, fp, argc, w, fuel);
  }

  /**
   The machine ends with an outcome if and only if the names say so, but where by the names a variable is used that
   has no value, or a call has too few arguments.
   */
  lemma HaltsExactlyAsNamed(g: Setting, top: Scope, p: Program, f: MethodRef, regs: Regs, fp: int, argc: nat, w: World,
                            m: Memory, o: Outcome)
    requires Runnable(g, top, p) && Startable(p, f, regs, w)
    requires Alike(w, m.w) && Remembers(WholeOf(g, top, p), w, m.vars)
    ensures (exists fuel: nat :: MeaningOfNames(g, top, p, f, regs, fp, argc, m, fuel).CallUnset?) ||
      ((exists k: nat, w' :: Steps(p, Start(p, f, regs, fp, w), k) == Done(o, w')) <==>
       (exists fuel: nat, m' :: MeaningOfNames(g, top, p, f, regs, fp, argc, m, fuel) == Comes(o, m')))
  {
    hide Runnable, Startable, Step, Steps, Start, Alike, Remembers, MeaningOfNames;
    var s := Start(p, f, regs, fp, w);
    if fuel: nat, m' :| MeaningOfNames(g, top, p, f, regs, fp, argc, m, fuel) == Comes(o, m') {
      ProgramMeansNames(g, top, p, f, regs, fp, argc, w, m, fuel);
    }
    if k: nat, w' :| Steps(p, s, k) == Done(o, w') {
      ProgramMeansNames(g, top, p, f, regs, fp, argc, w, m, k);
      match MeaningOfNames(g, top, p, f, regs, fp, argc, m, k)
      case Comes(o2, m2) =>
        var k2: nat, w2 :| Steps(p, s, k2) == Done(o2, w2);
        StaysHalted(p, s, if k <= k2 then k else k2, if k <= k2 then k2 else k);
        assert MeaningOfNames(g, top, p, f, regs, fp, argc, m, k) == Comes(o, m2);
      case CallFails =>
        var k2: nat :| Steps(p, s, k2).Crashed?;
        StaysHalted(p, s, if k <= k2 then k else k2, if k <= k2 then k2 else k);
      case _ =>
    }
  }

  /** The globals by name, as the closure they are kept in holds them. */
  function GlobalVariables(g: Setting, l: Closure): map<string, Value> {
    map x | x in g.globals && 0 <= g.globals[x] < |l.values| :: l.values[g.globals[x]]
  }

  /** Where a program starts there are only globals, and their values are the variables of the memory. */
  lemma FreshMemory(g: Setting, top: Scope, p: Program, w: World) returns (m: Memory)
    requires forall i :: 0 <= i < |w.closures| ==> w.closures[i].parent.None?
    ensures Alike(w, m.w) && Remembers(WholeOf(g, top, p), w, m.vars)
    ensures forall i :: 0 <= i < |w.closures| ==> m.vars[i] == GlobalVariables(g, w.closures[i])
  {
    m := Memory(w, seq(|w.closures|, i requires 0 <= i < |w.closures| => GlobalVariables(g, w.closures[i])));
  }
}
