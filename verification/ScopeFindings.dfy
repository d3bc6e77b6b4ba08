/**
 Two trees for which scope analysis and code generation do not work together: a block whose temporaries lie on
 one of its variables, and an operator assignment that misses the variable its name means.
 */
module ScopeFindings {
  import opened Ast
  import opened Emission
  import opened Machine
  import opened Evaluator
  import opened ScopeTracker
  import opened ScopeAnalysis
  import opened LexicalScoping
  import opened NameEvaluator
  import opened NonLocalReturn
  import opened RegisterAllocation
  import opened Correctness

  // ----- how the analysis walks -----

  lemma TrackLeaf(g: Setting, st: Tracking, v: int)
    requires st.stack != []
    ensures Track(g, st, Number(v)) == st
  {}

  lemma TrackSeq(g: Setting, st: Tracking, x: Node, y: Node)
    requires st.stack != []
    ensures Track(g, st, Seq(x, y)) == Track(g, Track(g, st, x), y)
  {
    var st1 := Track(g, st, x);
    assert TrackAll(g, Track(g, st1, y), NoNodes) == Track(g, st1, y);
    assert TrackAll(g, st1, More(y, NoNodes)) == Track(g, st1, y);
    assert TrackAll(g, st, More(x, More(y, NoNodes))) == TrackAll(g, st1, More(y, NoNodes));
    assert Parts(Seq(x, y)) == More(x, More(y, NoNodes));
  }

  lemma TrackAssign(g: Setting, st: Tracking, id: nat, name: string, v: int)
    requires st.stack != []
    ensures Track(g, st, Assign(id, name, Number(v))) == TrackDefine(st, id, name)
  {
    TrackLeaf(g, st, v);
    assert TrackAll(g, st, More(Number(v), NoNodes)) == st;
  }

  lemma TrackAssignOp(g: Setting, st: Tracking, id: nat, name: string, op: string, v: int)
    requires st.stack != []
    ensures Track(g, st, AssignOp(id, name, op, Number(v))) == TrackRebind(st, id, name)
  {
    TrackLeaf(g, st, v);
    assert TrackAll(g, st, More(Number(v), NoNodes)) == st;
  }

  lemma TrackNamed(g: Setting, st: Tracking, id: nat, name: string)
    requires st.stack != []
    ensures Track(g, st, Named(id, name)) == TrackLookup(g, st, id, name)
  {}

  lemma TrackLambda(g: Setting, st: Tracking, s: Scope)
    requires st.stack != []
    ensures Track(g, st, Lambda(s)) == TrackScope(g, st, s)
  {}

  lemma {:induction false} ListSize(xs: seq<string>, s: set<string>)
    requires forall x :: x in xs <==> x in s
    requires forall i, j :: 0 <= i < j < |xs| ==> xs[i] != xs[j]
    ensures |xs| == |s|
  {
    if xs == [] {
      assert s == {};
    } else {
      var n := |xs| - 1;
      assert xs == xs[..n] + [xs[n]];
      ListSize(xs[..n], s - {xs[n]});
    }
  }

  lemma OrderOfOne(g: Setting, x: string)
    requires Orders(g)
    ensures g.order({}) == [] && g.order({x}) == [x]
  {
    ListSize(g.order({}), {});
    ListSize(g.order({x}), {x});
    assert g.order({x})[0] in g.order({x});
  }

  lemma OrderOfTwo(g: Setting, x: string, y: string)
    requires Orders(g) && x != y
    ensures g.order({x, y}) in {[x, y], [y, x]}
  {
    var xs := g.order({x, y});
    ListSize(xs, {x, y});
    assert xs[0] in xs && xs[1] in xs && xs[0] != xs[1];
    assert xs == [xs[0], xs[1]];
  }

  // ----- a block whose temporaries lie on a variable -----

  /** `{ x }` */
  function Inner(): Scope { Scope(2, [], None, Named(12, "x")) }

  /** `{ |x| y = 1; { x }; y }` */
  function Outer(): Scope {
    Scope(1, [Argument(10, "x")], None,
          Seq(Assign(11, "y", Number(1)), Seq(Lambda(Inner()), Named(13, "y"))))
  }

  function File(body: Node): Scope { Scope(0, [], Some(Argument(9, "self")), body) }

  const SelfCell := Cell(Arg, -1, true, 0, 0)

  /** In the file, before its body. */
  function Opened(): Tracking { Tracking([SelfCell], map[9 := 0], map[0 := map["self" := 0]], [0], map[], map[]) }

  lemma EnterFile(body: Node)
    ensures Enter(Nothing, File(body)) == Opened()
  {}

  /** In the block, before its body. */
  function Entered(): (st: Tracking)
    ensures st.stack == [0, 1]
  {
    Tracking([SelfCell, Cell(Arg, 0, true, 0, 0)], map[9 := 0, 10 := 1],
             map[0 := map["self" := 0], 1 := map["x" := 1]], [0, 1], map[], map[])
  }

  lemma EnterOuter()
    ensures Enter(Opened(), Outer()) == Entered()
  {
    var st := Opened().(stack := [0] + [1], tables := Opened().tables[1 := map[]]);
    assert st.stack == [0, 1];
    var st1 := EnterArgument(st, 1, Outer().args[0], 0);
    assert st1 == Entered();
    assert EnterArguments(st1, Outer(), 1) == st1;
    assert EnterArguments(st, Outer(), 0) == EnterArguments(st1, Outer(), 1);
  }

  /** After `y = 1`. */
  function Assigned(): (st: Tracking)
    ensures st.stack == [0, 1]
  {
    Tracking([SelfCell, Cell(Arg, 0, true, 0, 0), Cell(Register, 0, false, 0, 0)], map[9 := 0, 10 := 1, 11 := 2],
             map[0 := map["self" := 0], 1 := map["x" := 1, "y" := 2]], [0, 1], map[], map[])
  }

  lemma TrackAssigned(g: Setting)
    ensures Track(g, Entered(), Assign(11, "y", Number(1))) == Assigned()
  {
    TrackAssign(g, Entered(), 11, "y", 1);
    assert Entered().Names(0) == map["self" := 0] && Enclosing(Entered(), "y", 2) == None;
    assert Declare(Entered(), 11, "y") == Assigned();
  }

  /** In `{ x }`, before and after its body: the argument has moved to the closure. */
  function InnerEntered(): (st: Tracking)
    ensures st.stack == [0, 1, 2]
  {
    Assigned().(stack := [0, 1, 2], tables := Assigned().tables[2 := map[]])
  }

  function InnerLooked(): (st: Tracking)
    ensures st.stack == [0, 1, 2]
  {
    var st := InnerEntered();
    st.(cells := [SelfCell, Cell(Own, 0, false, 0, 0), Cell(Register, 0, false, 0, 0), Cell(Access, 0, false, 1, 1)],
        places := st.places[12 := 3])
  }

  lemma EnterInner()
    ensures Enter(Assigned(), Inner()) == InnerEntered()
  {
    hide Assigned;
    assert [0, 1] + [2] == [0, 1, 2];
    assert EnterArguments(InnerEntered(), Inner(), 0) == InnerEntered();
  }

  lemma LookInner(g: Setting)
    ensures Track(g, InnerEntered(), Named(12, "x")) == InnerLooked()
  {
    var st := InnerEntered();
    TrackNamed(g, st, 12, "x");
    assert Enclosing(st, "x", 1) == Some(1);
    assert Reach(st, 12, "x", 1, 1) == InnerLooked();
  }

  /** After `{ x }`. */
  function Captured(): (st: Tracking)
    ensures st.stack == [0, 1]
  {
    InnerLooked().(stack := [0, 1], locals := map[2 := map[]], closed := map[2 := map[]])
  }

  lemma LeaveInner(g: Setting)
    requires Orders(g)
    ensures ScopeTracker.Leave(g, InnerLooked(), Inner()) == Captured()
  {
    hide Orders;
    OrderOfOne(g, "x");
    assert InnerLooked().Names(2).Keys == {};
    assert [0, 1, 2][..2] == [0, 1];
  }

  lemma TrackCaptured(g: Setting)
    requires Orders(g)
    ensures Track(g, Assigned(), Lambda(Inner())) == Captured()
  {
    hide Track, Enter, ScopeTracker.Leave, Assigned, InnerEntered, InnerLooked, Captured, Orders;
    TrackLambda(g, Assigned(), Inner());
    EnterInner();
    LookInner(g);
    LeaveInner(g);
  }

  /** After the block's last node, and after the block. */
  function Looked(): (st: Tracking)
    ensures st.stack == [0, 1]
  {
    Captured().(places := Captured().places[13 := 2])
  }

  function Left(): Tracking {
    Looked().(cells := FinalCells(), stack := [0], locals := Looked().locals[1 := map["y" := 1]],
              closed := Looked().closed[1 := map["x" := 0]])
  }

  function FinalCells(): seq<Cell> {
    [SelfCell, Cell(Own, 0, false, 0, 0), Cell(Register, 1, false, 0, 0), Cell(Access, 0, false, 1, 1)]
  }

  /** The whole file analysed. */
  function Analysed(): Tracking {
    Left().(stack := [], locals := Left().locals[0 := map["self" := -1]], closed := Left().closed[0 := map[]])
  }

  lemma NumberHead(n: Numbering, names: Names, x: string, xs: seq<string>)
    requires x in names && names[x] < |n.cells|
    ensures NumberAll(n, names, [x] + xs) == NumberAll(NumberOne(n, x, names[x]), names, xs)
  {
    hide NumberOne;
    assert ([x] + xs)[1..] == xs;
  }

  lemma NumberPair(n: Numbering, names: Names, x: string, y: string)
    requires x in names && names[x] < |n.cells| && y in names && names[y] < |n.cells|
    ensures NumberAll(n, names, [x, y]) == NumberOne(NumberOne(n, x, names[x]), y, names[y])
  {
    hide NumberAll, NumberOne;
    assert [x, y] == [x] + [y] && [y] == [y] + [];
    NumberHead(n, names, x, [y]);
    NumberedCells(n, x, names[x]);
    NumberHead(NumberOne(n, x, names[x]), names, y, []);
    NumberNone(NumberOne(NumberOne(n, x, names[x]), y, names[y]), names);
  }

  lemma NumberedCells(n: Numbering, x: string, c: nat)
    requires c < |n.cells|
    ensures |NumberOne(n, x, c).cells| == |n.cells|
  {}

  lemma NumberNone(n: Numbering, names: Names)
    ensures NumberAll(n, names, []) == n
  {}

  lemma NumberBoth()
    ensures var n := Numbering(Looked().cells, 1, map[], map[]);
      var done := Numbering(FinalCells(), 2, map["y" := 1], map["x" := 0]);
      NumberOne(NumberOne(n, "x", 1), "y", 2) == done && NumberOne(NumberOne(n, "y", 2), "x", 1) == done
  {}

  lemma NumberOuter(xs: seq<string>)
    requires xs in {["x", "y"], ["y", "x"]}
    ensures NumberAll(Numbering(Looked().cells, 1, map[], map[]), map["x" := 1, "y" := 2], xs) ==
      Numbering(FinalCells(), 2, map["y" := 1], map["x" := 0])
  {
    hide NumberAll, NumberOne;
    var n, names := Numbering(Looked().cells, 1, map[], map[]), map["x" := 1, "y" := 2];
    NumberPair(n, names, "x", "y");
    NumberPair(n, names, "y", "x");
    NumberBoth();
  }

  lemma LeaveAs(g: Setting, st: Tracking, s: Scope, names: Names, xs: seq<string>, n: Numbering)
    requires st.stack != [] && st.Names(s.id) == names && g.order(names.Keys) == xs
    requires NumberAll(Numbering(st.cells, |s.args|, map[], map[]), names, xs) == n
    ensures ScopeTracker.Leave(g, st, s) ==
      st.(cells := n.cells, stack := st.stack[..|st.stack| - 1], locals := st.locals[s.id := n.locals],
          closed := st.closed[s.id := n.closed])
  {}

  lemma LeaveOuter(g: Setting)
    requires Orders(g)
    ensures ScopeTracker.Leave(g, Looked(), Outer()) == Left()
  {
    hide NumberAll, Orders, ScopeTracker.Leave;
    OrderOfTwo(g, "x", "y");
    var names, xs := map["x" := 1, "y" := 2], g.order({"x", "y"});
    NumberOuter(xs);
    assert names.Keys == {"x", "y"};
    LeaveAs(g, Looked(), Outer(), names, xs, Numbering(FinalCells(), 2, map["y" := 1], map["x" := 0]));
    assert [0, 1][..1] == [0];
  }

  lemma LeaveFile(g: Setting, st: Tracking, body: Node)
    requires Orders(g) && st.stack == [0] && st.cells != [] && st.cells[0] == SelfCell
    requires st.Names(0) == map["self" := 0]
    ensures ScopeTracker.Leave(g, st, File(body)) ==
      st.(stack := [], locals := st.locals[0 := map["self" := -1]], closed := st.closed[0 := map[]])
  {
    OrderOfOne(g, "self");
    assert map["self" := 0].Keys == {"self"};
    var n := Numbering(st.cells, 0, map[], map[]);
    assert ["self"][1..] == [];
    assert NumberAll(n, st.Names(0), ["self"]) == NumberOne(n, "self", 0);
  }

  lemma TrackBody(g: Setting)
    requires Orders(g)
    ensures Track(g, Entered(), Outer().body) == Looked()
  {
    hide Track, Entered, Assigned, Captured, Orders;
    var body := Outer().body;
    TrackSeq(g, Entered(), body.first, body.second);
    TrackAssigned(g);
    TrackSeq(g, Assigned(), body.second.first, body.second.second);
    TrackCaptured(g);
    TrackNamed(g, Captured(), 13, "y");
    LookupLast(g);
  }

  lemma LookupLast(g: Setting)
    ensures TrackLookup(g, Captured(), 13, "y") == Looked()
  {}

  lemma OuterAnalysed(g: Setting)
    requires Orders(g)
    ensures Analyse(g, File(Lambda(Outer()))) == Analysed()
  {
    hide Track, Enter, ScopeTracker.Leave, Entered, Looked, Left, Orders;
    EnterFile(Lambda(Outer()));
    TrackLambda(g, Opened(), Outer());
    EnterOuter();
    TrackBody(g);
    LeaveOuter(g);
    LeftHas();
    LeaveFile(g, Left(), Lambda(Outer()));
  }

  lemma LeftHas()
    ensures Left().stack == [0] && Left().cells != [] && Left().cells[0] == SelfCell
    ensures Left().Names(0) == map["self" := 0]
  {}

  /** Where the analysis puts the block's names. */
  ghost predicate Placed(lay: Layout) {
    lay.At(10) == Some(Clo(0, 0)) && lay.At(11) == Some(Reg(1)) && lay.At(13) == Some(Reg(1)) &&
    lay.Locals(Outer()) == 1 && lay.Cov(Outer()) == 1
  }

  lemma OuterPlaces()
    ensures var st := Analysed();
      st.cells == FinalCells() && {10, 11, 13} <= st.places.Keys &&
      st.places[10] == 1 && st.places[11] == 2 && st.places[13] == 2
  {}

  lemma OuterCounts()
    ensures var st := Analysed();
      1 in st.locals && st.locals[1] == map["y" := 1] && 1 in st.closed && st.closed[1] == map["x" := 0]
  {}

  lemma OuterPlaced()
    ensures Placed(LayoutOf(Analysed()))
  {
    hide Analysed;
    OuterPlaces();
    OuterCounts();
  }

  const OuterCode := Template(Outer(), Block)

  function Bytes(): seq<int> { [SVAR, 0, 0, 0, MOVI8, 1, 1, MOVR, 1, 1, LOADC, 1, 0, MOVR, 1, 1, RET, 1] }

  lemma OuterProlog(lay: Layout)
    requires Placed(lay)
    ensures EmitProlog(lay, Outer(), Emission.Empty) == Buf(Bytes()[..4], [], [])
  {
    var b := EmitArgument(lay, Outer().args[0], 0, Emission.Empty);
    assert EmitArguments(lay, Outer().args, 1, b).code == Bytes()[..4];
  }

  lemma OuterAssign(lay: Layout)
    requires Placed(lay)
    ensures Emit(lay, true, Assign(11, "y", Number(1)), 1, Buf(Bytes()[..4], [], [])) == Buf(Bytes()[..10], [], [])
  {
    var b := Buf(Bytes()[..4], [], []);
    assert Emit(lay, true, Number(1), 1, b) == Push(b, [MOVI8, 1, 1]);
  }

  lemma OuterRest(lay: Layout)
    requires Placed(lay)
    ensures Emit(lay, true, Outer().body.second, 1, Buf(Bytes()[..10], [], [])) ==
      Buf(Bytes()[..16], [], [Template(Inner(), Block)])
  {
    var b := Buf(Bytes()[..10], [], []);
    var b1 := Emit(lay, true, Lambda(Inner()), 1, b);
    assert b1 == Buf(Bytes()[..13], [], [Template(Inner(), Block)]);
    assert Emit(lay, true, Named(13, "y"), 1, b1) == Push(b1, [MOVR, 1, 1]);
  }

  lemma NarrowBytes(xs: seq<int>)
    requires forall x :: x in xs ==> 0 <= x < 256
    ensures Narrow(xs) == xs
  {
    assert forall i :: 0 <= i < |xs| ==> xs[i] in xs && Byte(xs[i]) == xs[i];
  }

  lemma OuterBytes(lay: Layout)
    requires Placed(lay)
    ensures CodeOf(lay, OuterCode) == Buf(Bytes(), [], [Template(Inner(), Block)])
  {
    hide Emit, EmitProlog;
    OuterProlog(lay);
    OuterAssign(lay);
    OuterRest(lay);
    EmitSeq(lay, Outer().body.first, Outer().body.second, Buf(Bytes()[..4], [], []));
    assert RawCode(lay, OuterCode).code == Bytes()[..16] + [RET, 1] == Bytes();
    NarrowBytes(Bytes());
  }

  lemma EmitSeq(lay: Layout, x: Node, y: Node, b: Buf)
    ensures Emit(lay, true, Seq(x, y), 1, b) == Emit(lay, true, y, 1, Emit(lay, true, x, 1, b))
  {}

  /** The world once the block's closure holds its argument. */
  function Held(w: World, c: nat, v: Value): World {
    w.(closures := w.closures + [Closure(Some(c), [v], false, OuterCode)])
  }

  lemma ArgumentHeld(p: Program, c: nat, w: World, v: Value)
    requires p.lay.Cov(Outer()) == 1
    ensures SetAtDepth(WithClosure(p, MethodRef(OuterCode, c), w), |w.closures|, 0, 0, v) == Some(Held(w, c, v))
  {
    var w', n := WithClosure(p, MethodRef(OuterCode, c), w), |w.closures|;
    assert w'.closures[n].values[0 := v] == [v];
    assert w'.closures[n := w'.closures[n].(values := [v])] == Held(w, c, v).closures;
  }

  lemma OuterStarts(p: Program, c: nat, regs: Regs, fp: int, w: World)
    requires Placed(p.lay)
    ensures var f := Activation(MethodRef(OuterCode, c), fp, w);
      Step(p, Start(p, f.m, regs, fp, w)) == Running([], f.(ip := 4), regs, Held(w, c, Get(regs, fp)))
  {
    hide CodeOf, SetAtDepth, Call, Deliver, WithClosure;
    OuterBytes(p.lay);
    ArgumentHeld(p, c, w, Get(regs, fp));
  }

  /** The loads and moves in register 1, where `y` is. */
  lemma OuterMoves(p: Program, f: Frame, regs: Regs, w: World)
    requires Placed(p.lay) && f.m.code == OuterCode && f.ip in {4, 7, 13}
    ensures var v := if f.ip == 4 then IntV(1) else Get(regs, f.fp + 1);
      Step(p, Running([], f, regs, w)) == Running([], f.(ip := f.ip + 3), regs[f.fp + 1 := v], w)
  {
    hide CodeOf, SetAtDepth, Call, Placed, SendStep, WorldStep, JumpStep, LeaveStep;
    OuterBytes(p.lay);
  }

  /** The inner block is loaded into register 1, and register 1 is returned. */
  lemma OuterEnds(p: Program, f: Frame, regs: Regs, w: World)
    requires Placed(p.lay) && f.m.code == OuterCode && f.ip in {10, 16}
    ensures var v := MethodV(MethodRef(Template(Inner(), Block), f.clos));
      Step(p, Running([], f, regs, w)) ==
      if f.ip == 10 then Running([], f.(ip := 13), regs[f.fp + 1 := v], w) else Done(Ret(Get(regs, f.fp + 1)), w)
  {
    hide CodeOf, SetAtDepth, Call, Placed, SendStep, WorldStep, JumpStep;
    OuterBytes(p.lay);
  }

  /** The code leaves the inner block where `y` was. */
  lemma OuterRuns(p: Program, c: nat, regs: Regs, fp: int, w: World)
    requires Placed(p.lay)
    ensures Steps(p, Start(p, MethodRef(OuterCode, c), regs, fp, w), 6) ==
      Done(Ret(MethodV(MethodRef(Template(Inner(), Block), |w.closures|))), Held(w, c, Get(regs, fp)))
  {
    hide Step, Placed, Start;
    var f := Activation(MethodRef(OuterCode, c), fp, w);
    var w1, v, y := Held(w, c, Get(regs, fp)), MethodV(MethodRef(Template(Inner(), Block), |w.closures|)), fp + 1;
    OuterStarts(p, c, regs, fp, w);
    OuterMoves(p, f.(ip := 4), regs, w1);
    var r1 := regs[y := IntV(1)];
    OuterMoves(p, f.(ip := 7), r1, w1);
    var r2 := r1[y := Get(r1, y)];
    OuterEnds(p, f.(ip := 10), r2, w1);
    var r3 := r2[y := v];
    OuterMoves(p, f.(ip := 13), r3, w1);
    OuterEnds(p, f.(ip := 16), r3[y := v], w1);
    var s := Start(p, f.m, regs, fp, w);
    StepsAdd(p, s, 3, 3);
    assert Steps(p, s, 3) == Running([], f.(ip := 10), r2, w1);
  }

  // ----- what the block means -----

  /** By its names the block gives the value of `y`. */
  lemma OuterMeans(p: Source, f: MethodRef, self: Value, args: seq<Value>, m: Memory, fuel: nat)
    requires f.code == OuterCode && |args| > 0 && |m.vars| == |m.w.closures|
    requires 11 in p.depths && p.depths[11] == 0 && 13 in p.depths && p.depths[13] == 0
    ensures exists m' :: RunName(p, f, self, args, m, fuel) == Comes(Ret(IntV(1)), m')
  {
    var x, body := Ctx(self, |m.w.closures|, f), Outer().body;
    var vars := Variables(Outer(), self, args);
    var m1 := Made(f, vars, m);
    assert m1.vars[x.clos] == vars;
    OwnAncestor(m1, x.clos);
    assert EvalName(p, x, Number(1), m1, fuel) == Gives(IntV(1), m1);
    var m2 := m1.(vars := m1.vars[x.clos := vars["y" := IntV(1)]]);
    assert EvalName(p, x, body.first, m1, fuel) == Gives(IntV(1), m2);
    assert EvalName(p, x, Named(13, "y"), m2, fuel) == Gives(IntV(1), m2);
    assert EvalName(p, x, body.second, m2, fuel) == Gives(IntV(1), m2);
    assert EvalName(p, x, body, m1, fuel) == Gives(IntV(1), m2);
  }

  lemma OwnAncestor(m: Memory, c: nat)
    requires c < |m.w.closures|
    ensures Ancestor(m.w, c, 0) == Some(c)
  {}

  lemma OuterDepths(g: Setting)
    requires Orders(g)
    ensures var depths := Depths(g.globals.Keys, File(Lambda(Outer())));
      11 in depths && depths[11] == 0 && 13 in depths && depths[13] == 0
  {
    hide Depths, Analyse, Orders, WellFormed, Analysed;
    FindingsWellFormed();
    OuterAnalysed(g);
    AnalysisIsLexical(g, File(Lambda(Outer())));
    OuterPlaces();
  }

  /**
   The block `{ |x| y = 1; { x }; y }`, analysed in any order of names and run with an argument: the machine gives back
   the block `{ x }`, where by its names it gives 1.
   */
  lemma BlockTemporariesCollide(g: Setting, p: Program, c: nat, regs: Regs, fp: int, w: World, args: seq<Value>,
                                self: Value, m: Memory, fuel: nat)
    requires Orders(g) && p.lay == LayoutOf(Analyse(g, File(Lambda(Outer()))))
    requires |args| > 0 && |m.vars| == |m.w.closures|
    ensures WellFormed(File(Lambda(Outer())))
    ensures var locals := Analyse(g, File(Lambda(Outer()))).locals;
      1 in locals && locals[1] == map["y" := 1] && !OnlyLastCaptured(locals[1], 1)
    ensures Steps(p, Start(p, MethodRef(OuterCode, c), regs, fp, w), 6) ==
      Done(Ret(MethodV(MethodRef(Template(Inner(), Block), |w.closures|))), Held(w, c, Get(regs, fp)))
    ensures var source := Source(p.env, Depths(g.globals.Keys, File(Lambda(Outer()))));
      exists m' :: RunName(source, MethodRef(OuterCode, c), self, args, m, fuel) == Comes(Ret(IntV(1)), m')
  {
    hide Analyse, LayoutOf, Step, Steps, Start, RunName, Orders, WellFormed, Depths, Analysed;
    FindingsWellFormed();
    OuterAnalysed(g);
    OuterCounts();
    OuterPlaced();
    OuterRuns(p, c, regs, fp, w);
    OuterDepths(g);
    var source := Source(p.env, Depths(g.globals.Keys, File(Lambda(Outer()))));
    OuterMeans(source, MethodRef(OuterCode, c), self, args, m, fuel);
    assert "y" in map["y" := 1] && !Uses(map["y" := 1], 0);
  }

  // ----- an operator assignment that misses the variable -----

  /** `{ x += 1 }` */
  function Adder(): Scope { Scope(1, [], None, AssignOp(22, "x", "+", Number(1))) }

  /** `x = 1; { x += 1 }` */
  function Line(): Node { Seq(Assign(21, "x", Number(1)), Lambda(Adder())) }

  /** After `x = 1`. */
  function LineSet(): (st: Tracking)
    ensures st.stack == [0]
  {
    Tracking([SelfCell, Cell(Register, 0, false, 0, 0)], map[9 := 0, 21 := 1],
             map[0 := map["self" := 0, "x" := 1]], [0], map[], map[])
  }

  lemma TrackSet(g: Setting)
    ensures Track(g, Opened(), Assign(21, "x", Number(1))) == LineSet()
  {
    TrackAssign(g, Opened(), 21, "x", 1);
    assert Enclosing(Opened(), "x", 1) == None;
  }

  /** In the block, before its body. */
  function AdderEntered(): (st: Tracking)
    ensures st.stack == [0, 1]
  {
    LineSet().(stack := [0, 1], tables := map[0 := map["self" := 0, "x" := 1], 1 := map[]])
  }

  /** After `x += 1`: the file's variable has moved to the closure, and the node has a new one. */
  function Added(): (st: Tracking)
    ensures st.stack == [0, 1]
  {
    var st := AdderEntered();
    st.(cells := [SelfCell, Cell(Own, 0, false, 0, 0), Cell(Access, 0, false, 1, 0), Cell(Register, 0, false, 0, 0)],
        places := st.places[22 := 2][22 := 3], tables := st.tables[1 := map["x" := 3]])
  }

  lemma TrackAdded(g: Setting)
    ensures Track(g, AdderEntered(), Adder().body) == Added()
  {
    var st := AdderEntered();
    TrackAssignOp(g, st, 22, "x", "+", 1);
    var st1 := Reach(st, 22, "x", 1, 0);
    assert ReachAll(st1, 22, "x", 2) == st1;
    assert ReachAll(st, 22, "x", 1) == st1;
    assert Declare(st1, 22, "x") == Added();
  }

  /** After the block: its variable has its register 0. */
  function AdderLeft(): (st: Tracking)
    ensures st.stack == [0]
  {
    Added().(stack := [0], locals := map[1 := map["x" := 0]], closed := map[1 := map[]])
  }

  lemma LeaveAdder(g: Setting)
    requires Orders(g)
    ensures ScopeTracker.Leave(g, Added(), Adder()) == AdderLeft()
  {
    hide Orders;
    OrderOfOne(g, "x");
    var n, names := Numbering(Added().cells, 0, map[], map[]), map["x" := 3];
    assert names.Keys == {"x"} && Added().Names(1) == names;
    var n1 := Numbering(Added().cells, 1, map["x" := 0], map[]);
    assert NumberOne(n, "x", 3) == n1;
    assert ["x"] == ["x"] + [];
    NumberHead(n, names, "x", []);
    NumberNone(n1, names);
    assert [0, 1][..1] == [0];
  }

  lemma EnterAdder()
    ensures Enter(LineSet(), Adder()) == AdderEntered()
  {
    assert [0] + [1] == [0, 1];
    var st := AdderEntered();
    assert EnterArguments(st, Adder(), 0) == st;
  }

  lemma TrackLine(g: Setting)
    requires Orders(g)
    ensures Track(g, Opened(), Line()) == AdderLeft()
  {
    hide Track, Enter, LineSet, ScopeTracker.Leave, AdderEntered, Added, AdderLeft, Orders;
    TrackSeq(g, Opened(), Line().first, Line().second);
    TrackSet(g);
    TrackLambda(g, LineSet(), Adder());
    EnterAdder();
    TrackAdded(g);
    LeaveAdder(g);
  }

  /** The whole file analysed. */
  function LineAnalysed(): Tracking {
    Added().(stack := [], locals := map[0 := map["self" := -1], 1 := map["x" := 0]],
             closed := map[0 := map["x" := 0], 1 := map[]])
  }

  lemma LeaveLine(g: Setting)
    requires Orders(g)
    ensures ScopeTracker.Leave(g, AdderLeft(), File(Line())) == LineAnalysed()
  {
    hide NumberAll, Orders, ScopeTracker.Leave;
    OrderOfTwo(g, "self", "x");
    var names, xs := map["self" := 0, "x" := 1], g.order({"self", "x"});
    assert names.Keys == {"self", "x"};
    var n := Numbering(AdderLeft().cells, 0, map[], map[]);
    var done := Numbering(AdderLeft().cells, 0, map["self" := -1], map["x" := 0]);
    NumberPair(n, names, "self", "x");
    NumberPair(n, names, "x", "self");
    NumberLine();
    LeaveAs(g, AdderLeft(), File(Line()), names, xs, done);
  }

  lemma NumberLine()
    ensures var n := Numbering(AdderLeft().cells, 0, map[], map[]);
      var done := Numbering(AdderLeft().cells, 0, map["self" := -1], map["x" := 0]);
      NumberOne(NumberOne(n, "self", 0), "x", 1) == done && NumberOne(NumberOne(n, "x", 1), "self", 0) == done
  {}

  lemma LineIsAnalysed(g: Setting)
    requires Orders(g)
    ensures Analyse(g, File(Line())) == LineAnalysed()
  {
    hide Track, Enter, ScopeTracker.Leave, AdderLeft, LineAnalysed, Orders;
    EnterFile(Line());
    TrackLine(g);
    LeaveLine(g);
  }

  /**
   In `x = 1; { x += 1 }` the operator assignment does not get the variable of the assignment before it, though
   that moved to the file's closure for it; it gets a register of the block, which it reads before it has a value.
   */
  lemma RebindMisses(g: Setting, p: Program, c: nat, regs: Regs, fp: int, w: World, fuel: nat)
    requires Orders(g) && p.lay == LayoutOf(Analyse(g, File(Line())))
    ensures WellFormed(File(Line()))
    ensures var st := Analyse(g, File(Line())); Holder(st, 21) == Some(1) && Holder(st, 22) == Some(3)
    ensures p.lay.At(21) == Some(Clo(0, 0)) && p.lay.At(22) == Some(Reg(0))
    ensures Meaning(p, MethodRef(Template(Adder(), Block), c), regs, fp, 0, w, fuel) == CallJunk
  {
    hide Analyse, Orders, Activate, WellFormed;
    FindingsWellFormed();
    LineIsAnalysed(g);
    AdderJunk(p, c, regs, fp, w, fuel);
  }

  lemma AdderJunk(p: Program, c: nat, regs: Regs, fp: int, w: World, fuel: nat)
    requires p.lay.At(22) == Some(Reg(0))
    ensures Meaning(p, MethodRef(Template(Adder(), Block), c), regs, fp, 0, w, fuel) == CallJunk
  {
    var m := MethodRef(Template(Adder(), Block), c);
    var x, w1 := Ctx(Get(regs, fp - 1), |w.closures|, m), WithClosure(p, m, w);
    assert Prolog(p, x, [], w1) == Norm(NilV, [], w1);
    var l := InitialLocals(p.lay.Locals(Adder()), []);
    assert Read(x, Some(Reg(0)), l, w1) == Junk;
    assert Eval(p, x, Adder().body, l, w1, fuel) == Junk;
    assert Window(regs, fp, 0) == [];
  }

  // ----- both files are trees of the kind the analysis is proved for -----

  lemma UniquePair(x: Node, y: Node)
    requires IdsIn(x) !! IdsIn(y) && ScopesIn(x) !! ScopesIn(y) && Unique(x) && Unique(y)
    ensures var s := Seq(x, y);
      Unique(s) && IdsIn(s) == IdsIn(x) + IdsIn(y) && ScopesIn(s) == ScopesIn(x) + ScopesIn(y)
  {
    var es := More(y, NoNodes);
    assert IdsOfAll(es) == IdsIn(y) && ScopesOfAll(es) == ScopesIn(y) && UniqueAll(es);
    assert IdsOfAll(More(x, es)) == IdsIn(x) + IdsIn(y) && ScopesOfAll(More(x, es)) == ScopesIn(x) + ScopesIn(y);
    assert UniqueAll(More(x, es));
    assert Parts(Seq(x, y)) == More(x, es);
  }

  lemma UniqueBind(e: Node, id: nat)
    requires (e.Assign? || e.AssignOp?) && e.id == id && e.value.Number?
    ensures Unique(e) && IdsIn(e) == {id} && ScopesIn(e) == {}
  {
    assert IdsIn(e.value) == {} && ScopesIn(e.value) == {} && Unique(e.value);
    var es := More(e.value, NoNodes);
    assert IdsOfAll(es) == {} && ScopesOfAll(es) == {} && UniqueAll(es);
    assert Parts(e) == es;
  }

  lemma UniqueNamed(id: nat, name: string)
    ensures Unique(Named(id, name)) && IdsIn(Named(id, name)) == {id} && ScopesIn(Named(id, name)) == {}
  {}

  lemma UniqueBlock(s: Scope)
    requires Unique(s.body) && DistinctArgs(s) && ArgumentIds(s) !! IdsIn(s.body) && s.id !in ScopesIn(s.body)
    ensures var e := Lambda(s);
      Unique(e) && IdsIn(e) == ArgumentIds(s) + IdsIn(s.body) && ScopesIn(e) == {s.id} + ScopesIn(s.body)
  {}

  lemma Units(body: Node)
    requires 9 !in IdsIn(body) && 0 !in ScopesIn(body) && Unique(body)
    ensures WellFormed(File(body))
  {}

  lemma FindingsWellFormed()
    ensures WellFormed(File(Lambda(Outer()))) && WellFormed(File(Line()))
  {
    hide Unique, IdsIn, ScopesIn, WellFormed;
    var body := Outer().body;
    UniqueNamed(12, "x");
    UniqueBlock(Inner());
    UniqueNamed(13, "y");
    UniquePair(Lambda(Inner()), Named(13, "y"));
    UniqueBind(body.first, 11);
    UniquePair(body.first, body.second);
    UniqueBlock(Outer());
    Units(Lambda(Outer()));
    UniqueBind(Adder().body, 22);
    UniqueBlock(Adder());
    UniqueBind(Line().first, 21);
    UniquePair(Line().first, Line().second);
    Units(Line());
  }
}
