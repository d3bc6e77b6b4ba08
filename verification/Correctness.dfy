/** What the simulation says about whole runs of a method object. */
module Correctness {
  import opened Ast
  import opened Emission
  import opened Machine
  import opened Evaluator
  import opened Simulation
  import opened RuntimeInvariant

  /** A method object that exists, in a world and over registers that hold only what exists. */
  ghost predicate Startable(p: Program, m: MethodRef, regs: Regs, w: World) {
    WorldOk(p, w) && MethodOk(p, w, m) && RegsOk(p, w, regs)
  }

  /** What the evaluator says about a run from `Start`. */
  function Meaning(p: Program, m: MethodRef, regs: Regs, fp: int, argc: nat, w: World, fuel: nat): CallRes {
    Activate(p, m, Get(regs, fp - 1), Window(regs, fp, argc), w, fuel)
  }

  lemma {:induction false} Halted(p: Program, s: State, k: nat)
    requires !s.Running?
    ensures Steps(p, s, k) == s
    decreases k
  {
    if k > 0 { Halted(p, s, k - 1); }
  }

  /** A run that has stopped after `k` steps is in the same state after `n >= k` steps. */
  lemma StaysHalted(p: Program, s: State, k: nat, n: nat)
    requires k <= n && !Steps(p, s, k).Running?
    ensures Steps(p, s, n) == Steps(p, s, k)
  {
    hide Step;
    StepsAdd(p, s, k, n - k);
    Halted(p, Steps(p, s, k), n - k);
  }

  /**
   The compiler is correct: if the evaluator finishes, so does the machine, with the same outcome
   and the same world; if the evaluator needs more than `fuel` calls and loop turns, the machine is
   still running after `fuel` steps; if a check fails in the one it fails in the other.
   */
  lemma CompilerCorrect(p: Program, m: MethodRef, regs: Regs, fp: int, argc: nat, w: World, fuel: nat)
    requires SoundProgram(p) && Startable(p, m, regs, w)
    ensures match Meaning(p, m, regs, fp, argc, w, fuel)
      case Came(o, w') => exists k: nat :: Steps(p, Start(p, m, regs, fp, w), k) == Done(o, w')
      case CallTimeout => Steps(p, Start(p, m, regs, fp, w), fuel).Running?
      case CallAbort => exists k: nat :: Steps(p, Start(p, m, regs, fp, w), k).Crashed?
      case CallJunk => true
  {
    hide Step, Steps, Activate, WithClosure, SaneRuntime, StateOk, SoundCode, CodeIn, MethodOk, RegsOk;
    var s := Start(p, m, regs, fp, w);
    StartOk(p, m, regs, fp, w);
    MethodIn(p, w, m);
    var k, s', regs' := SimActivate(p, s, m, Get(regs, fp - 1), Window(regs, fp, argc), w, fuel);
    match Meaning(p, m, regs, fp, argc, w, fuel)
    case Came(o, w') => assert Steps(p, s, k) == Done(o, w');
    case CallTimeout => if !Steps(p, s, fuel).Running? { StaysHalted(p, s, fuel, k); }
    case CallAbort => assert Steps(p, s, k).Crashed?;
    case CallJunk =>
  }

  /**
   The machine finishes if and only if the evaluator does, and finishes alike, but where the evaluator finds that a
   local is read that has no value.
   */
  lemma HaltsExactlyAsMeant(p: Program, m: MethodRef, regs: Regs, fp: int, argc: nat, w: World, o: Outcome, w': World)
    requires SoundProgram(p) && Startable(p, m, regs, w)
    ensures (exists fuel: nat :: Meaning(p, m, regs, fp, argc, w, fuel).CallJunk?) ||
      ((exists k: nat :: Steps(p, Start(p, m, regs, fp, w), k) == Done(o, w')) <==>
       (exists fuel: nat :: Meaning(p, m, regs, fp, argc, w, fuel) == Came(o, w')))
  {
    hide Step, Steps, Activate, WithClosure, Meaning, Start, SoundCode, SoundProgram, Startable;
    var s := Start(p, m, regs, fp, w);
    if fuel: nat :| Meaning(p, m, regs, fp, argc, w, fuel) == Came(o, w') {
      CompilerCorrect(p, m, regs, fp, argc, w, fuel);
    }
    if k: nat :| Steps(p, s, k) == Done(o, w') {
      CompilerCorrect(p, m, regs, fp, argc, w, k);
      match Meaning(p, m, regs, fp, argc, w, k)
      case Came(o2, w2) =>
        var k2: nat :| Steps(p, s, k2) == Done(o2, w2);
        StaysHalted(p, s, if k <= k2 then k else k2, if k <= k2 then k2 else k);
        assert Meaning(p, m, regs, fp, argc, w, k) == Came(o, w');
      case CallAbort =>
        var k2: nat :| Steps(p, s, k2).Crashed?;
        StaysHalted(p, s, if k <= k2 then k else k2, if k <= k2 then k2 else k);
      case _ =>
    }
  }

  /**
   A 32-bit literal is loaded as written exactly when it is not between -126 and -1: those are sent
   as one byte, which the machine reads as a positive number.
   */
  lemma LiteralsLoadedAsWritten(v: int, t: int)
    requires -0x8000_0000 <= v < 0x8000_0000
    ensures var xs := NumberCode(v, t);
      var loaded := if xs[0] == MOVI8 then xs[2] else WordValue(xs[2], xs[3], xs[4], xs[5]);
      loaded == v <==> LoadableNumber(v)
  {
    if -127 < v < 128 {
      assert Byte(v) == if v < 0 then v + 256 else v;
    } else {
      WordRoundTrip(v);
    }
  }

  /** A register number survives the signed operand of `SVAR` exactly when it is below 128. */
  lemma StoredRegister(t: int)
    requires 0 <= t < 256
    ensures SignedByte(Byte(t)) == t <==> t < 128
  {}
}
