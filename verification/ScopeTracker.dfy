/**
 Scope analysis: which register or closure slot each name of a program means. Local objects are
 shared between nodes and changed after they were handed out, so they live in a table of cells;
 a scope's name table is found by the scope's id.
 */
module ScopeTracker {
  import opened Ast

  datatype Kind = Register | Own | Access | Global | Arg

  /** A `Local`: what it is, its index and whether that was set, the local it accesses, its depth. */
  datatype Cell = Cell(kind: Kind, idx: int, fixed: bool, owned: nat, depth: int)

  type Names = map<string, nat>

  /**
   The analysis state: all cells, the cell of every node, the name table of every scope, the ids of
   the enclosing scopes (innermost last), and what finished scopes were told of their locals.
   */
  datatype Tracking = Tracking(cells: seq<Cell>, places: map<nat, nat>, tables: map<nat, Names>, stack: seq<nat>,
                               locals: map<nat, map<string, int>>, closed: map<nat, map<string, int>>)
  {
    function Names(scope: nat): Names { if scope in tables then tables[scope] else map[] }

    function Current(): nat
      requires stack != []
    {
      stack[|stack| - 1]
    }

    /** The scope `d` levels out from the innermost. */
    function Out(d: nat): nat
      requires d < |stack|
    {
      stack[|stack| - 1 - d]
    }
  }

  /** The names every program sees, and the order in which a scope's name table is walked. */
  datatype Setting = Setting(globals: map<string, int>, order: set<string> -> seq<string>)

  /** What a node does with a name: look it up, assign it, or bind it as an operator or handler does. */
  datatype Use = NoUse | Lookup(id: nat, name: string) | Define(id: nat, name: string) | Rebind(id: nat, name: string)

  function UseOf(e: Node): Use {
    match e
    case Self(id) => Lookup(id, "self")
    case Named(id, name) => Lookup(id, name)
    case Send(id, name, selfLess, _, _) => if selfLess then Lookup(id, name) else NoUse
    case Assign(id, name, _) => Define(id, name)
    case AssignOp(id, name, _, _) => Rebind(id, name)
    case Try(id, _, _, name, _) => if name.Some? then Rebind(id, name.value) else NoUse
    case _ => NoUse
  }

  /** The nodes inside `e` that are visited in the same scope, in visiting order. */
  function Parts(e: Node): Nodes {
    match e
    case Seq(x, y) => More(x, More(y, NoNodes))
    case Assign(_, _, v) => More(v, NoNodes)
    case AssignOp(_, _, _, v) => More(v, NoNodes)
    case Not(v) => More(v, NoNodes)
    case Raise(v) => More(v, NoNodes)
    case Return(v) => More(v, NoNodes)
    case And(x, y) => More(x, More(y, NoNodes))
    case IfCond(c, x, y) => More(c, More(x, if y.Some? then More(y.value, NoNodes) else NoNodes))
    case Unless(c, x) => More(c, More(x, NoNodes))
    case While(c, x) => More(c, More(x, NoNodes))
    case Tuple(args) => args
    case List(args) => args
    case Send(_, _, _, recv, args) => More(recv, args)
    case Try(_, body, handler, _, ty) =>
      More(body, if ty.Some? then More(ty.value, More(handler, NoNodes)) else More(handler, NoNodes))
    case _ => NoNodes
  }

  function ScopeOf(e: Node): Option<Scope> {
    match e
    case Lambda(s) => Some(s)
    case Def(_, s) => Some(s)
    case _ => None
  }

  /** A measure of trees that also counts nested scopes. */
  function Weight(e: Node): nat
    decreases e
  {
    match e
    case Seq(x, y) => 3 + Weight(x) + Weight(y)
    case Assign(_, _, v) => 2 + Weight(v)
    case AssignOp(_, _, _, v) => 2 + Weight(v)
    case Not(v) => 2 + Weight(v)
    case Raise(v) => 2 + Weight(v)
    case Return(v) => 2 + Weight(v)
    case And(x, y) => 3 + Weight(x) + Weight(y)
    case IfCond(c, x, y) => 4 + Weight(c) + Weight(x) + if y.Some? then Weight(y.value) else 0
    case Unless(c, x) => 3 + Weight(c) + Weight(x)
    case While(c, x) => 3 + Weight(c) + Weight(x)
    case Tuple(args) => 1 + WeightAll(args)
    case List(args) => 1 + WeightAll(args)
    case Send(_, _, _, recv, args) => 2 + Weight(recv) + WeightAll(args)
    case Try(_, body, handler, _, ty) => 4 + Weight(body) + Weight(handler) + if ty.Some? then Weight(ty.value) else 0
    case Lambda(s) => 2 + Weight(s.body)
    case Def(_, s) => 2 + Weight(s.body)
    case _ => 1
  }

  function WeightAll(es: Nodes): nat
    decreases es
  {
    match es
    case NoNodes => 0
    case More(e, rest) => 1 + Weight(e) + WeightAll(rest)
  }

  lemma WeightTwo(x: Node, y: Node)
    ensures WeightAll(More(x, NoNodes)) == 1 + Weight(x)
    ensures WeightAll(More(x, More(y, NoNodes))) == 2 + Weight(x) + Weight(y)
  {
    hide Weight;
    assert WeightAll(More(y, NoNodes)) == 1 + Weight(y);
  }

  lemma PartsWeighLess(e: Node)
    ensures WeightAll(Parts(e)) < Weight(e)
    ensures ScopeOf(e).Some? ==> Weight(ScopeOf(e).value.body) + 1 < Weight(e)
  {
    match e
    case Seq(x, y) => WeightTwo(x, y);
    case And(x, y) => WeightTwo(x, y);
    case Unless(x, y) => WeightTwo(x, y);
    case While(x, y) => WeightTwo(x, y);
    case IfCond(c, x, None) => WeightTwo(c, x);
    case IfCond(c, x, Some(y)) => WeightTwo(x, y);
    case Try(_, body, handler, _, Some(ty)) => WeightTwo(ty, handler);
    case Try(_, body, handler, _, None) => WeightTwo(body, handler);
    case _ =>
  }

  // ----- cells -----

  function MakeClosure(c: Cell): Cell { c.(kind := Own, fixed := false) }

  /** A fresh cell becomes the place of node `id`. */
  function Place(st: Tracking, id: nat, c: Cell): Tracking {
    st.(cells := st.cells + [c], places := st.places[id := |st.cells|])
  }

  /** The innermost scope further out than the current one that has the name. */
  function Enclosing(st: Tracking, name: string, d: nat): Option<nat>
    decreases |st.stack| - d
  {
    if d >= |st.stack| then None
    else if name in st.Names(st.Out(d)) then Some(d)
    else Enclosing(st, name, d + 1)
  }

  /** The variable of that name, `d` scopes out, moves to a closure; node `id` is told to find it at `depth`. */
  function Reach(st: Tracking, id: nat, name: string, d: nat, depth: nat): Tracking
    requires d < |st.stack| && name in st.Names(st.Out(d))
  {
    var c := st.Names(st.Out(d))[name];
    var st1 := if c < |st.cells| then st.(cells := st.cells[c := MakeClosure(st.cells[c])]) else st;
    Place(st1, id, Cell(Access, 0, false, c, depth))
  }

  /** The current scope gets a register local of its own. */
  function Declare(st: Tracking, id: nat, name: string): Tracking
    requires st.stack != []
  {
    var st1 := Place(st, id, Cell(Register, 0, false, 0, 0));
    st1.(tables := st1.tables[st.Current() := st.Names(st.Current())[name := |st.cells|]])
  }

  /** `find_scoped`. */
  function TrackLookup(g: Setting, st: Tracking, id: nat, name: string): Tracking
    requires st.stack != []
  {
    if name in st.Names(st.Current()) then st.(places := st.places[id := st.Names(st.Current())[name]])
    else
      var d := Enclosing(st, name, 1);
      if d.Some? then (EnclosingHas(st, name, 1); Reach(st, id, name, d.value, d.value))
      else if name in g.globals then Place(st, id, Cell(Global, g.globals[name], true, 0, |st.stack|))
      else st
  }

  lemma {:induction false} EnclosingHas(st: Tracking, name: string, d: nat)
    ensures Enclosing(st, name, d).Some? ==>
      d <= Enclosing(st, name, d).value < |st.stack| && name in st.Names(st.Out(Enclosing(st, name, d).value))
    ensures forall k :: d <= k < |st.stack| && name in st.Names(st.Out(k)) ==>
      Enclosing(st, name, d).Some? && Enclosing(st, name, d).value <= k
    decreases |st.stack| - d
  {
    if d < |st.stack| && name !in st.Names(st.Out(d)) { EnclosingHas(st, name, d + 1); }
  }

  /** `visit(Assign)`. */
  function TrackDefine(st: Tracking, id: nat, name: string): Tracking
    requires st.stack != []
  {
    if name in st.Names(st.Current()) then st.(places := st.places[id := st.Names(st.Current())[name]])
    else
      var d := Enclosing(st, name, 1);
      if d.Some? then (EnclosingHas(st, name, 1); Reach(st, id, name, d.value, d.value)) else Declare(st, id, name)
  }

  /** The loop over the enclosing scopes that does not stop at the first that has the name, and counts from 0. */
  function ReachAll(st: Tracking, id: nat, name: string, d: nat): Tracking
    requires 1 <= d
    decreases |st.stack| - d
  {
    if d >= |st.stack| then st
    else ReachAll(if name in st.Names(st.Out(d)) then Reach(st, id, name, d, d - 1) else st, id, name, d + 1)
  }

  /** `visit(AssignOp)` and `start_try_body`: a name of an enclosing scope is bound afresh. */
  function TrackRebind(st: Tracking, id: nat, name: string): Tracking
    requires st.stack != []
  {
    if name in st.Names(st.Current()) then st.(places := st.places[id := st.Names(st.Current())[name]])
    else
      var st1 := ReachAll(st, id, name, 1);
      ReachAllStack(st, id, name, 1);
      Declare(st1, id, name)
  }

  lemma {:induction false} ReachAllStack(st: Tracking, id: nat, name: string, d: nat)
    requires 1 <= d
    ensures ReachAll(st, id, name, d).stack == st.stack
    decreases |st.stack| - d
  {
    if d < |st.stack| {
      ReachAllStack(if name in st.Names(st.Out(d)) then Reach(st, id, name, d, d - 1) else st, id, name, d + 1);
    }
  }

  function Apply(g: Setting, st: Tracking, u: Use): (r: Tracking)
    requires st.stack != []
    ensures r.stack == st.stack
  {
    match u
    case NoUse => st
    case Lookup(id, name) => TrackLookup(g, st, id, name)
    case Define(id, name) => TrackDefine(st, id, name)
    case Rebind(id, name) => ReachAllStack(st, id, name, 1); TrackRebind(st, id, name)
  }

  // ----- scopes -----

  /** `before_visit(Scope)`: each argument is a local in its position; the first of a name is found by it. */
  function EnterArgument(st: Tracking, scope: nat, a: Argument, position: int): Tracking {
    var st1 := Place(st, a.id, Cell(Arg, position, true, 0, 0));
    if a.name in st.Names(scope) then st1
    else st1.(tables := st1.tables[scope := st.Names(scope)[a.name := |st.cells|]])
  }

  function EnterArguments(st: Tracking, s: Scope, i: nat): (r: Tracking)
    requires i <= |s.args|
    ensures r.stack == st.stack
    decreases |s.args| - i
  {
    if i == |s.args| then st else EnterArguments(EnterArgument(st, s.id, s.args[i], i), s, i + 1)
  }

  function Enter(st: Tracking, s: Scope): (r: Tracking)
    ensures r.stack == st.stack + [s.id]
  {
    var st1 := EnterArguments(st.(stack := st.stack + [s.id], tables := st.tables[s.id := map[]]), s, 0);
    if s.self.Some? then EnterArgument(st1, s.id, s.self.value, -1) else st1
  }

  /** The loop of `visit(Scope)`: register locals after the arguments, closed-over locals from slot 0. */
  datatype Numbering = Numbering(cells: seq<Cell>, regs: nat, locals: map<string, int>, closed: map<string, int>)

  predicate InRegister(c: Cell) { c.kind == Register || c.kind == Arg }

  function NumberOne(n: Numbering, x: string, c: nat): Numbering
    requires c < |n.cells|
  {
    var l := n.cells[c];
    if InRegister(l) then
      if l.fixed then n.(locals := n.locals[x := l.idx])
      else Numbering(n.cells[c := l.(idx := n.regs)], n.regs + 1, n.locals[x := n.regs], n.closed)
    else
      n.(cells := n.cells[c := l.(idx := |n.closed|)], closed := n.closed[x := |n.closed|])
  }

  function NumberAll(n: Numbering, names: Names, xs: seq<string>): (r: Numbering)
    ensures |r.cells| == |n.cells|
    decreases |xs|
  {
    if xs == [] then n
    else
      var x := xs[0];
      NumberAll(if x in names && names[x] < |n.cells| then NumberOne(n, x, names[x]) else n, names, xs[1..])
  }

  /** `visit(Scope)`. */
  function Leave(g: Setting, st: Tracking, s: Scope): Tracking
    requires st.stack != []
  {
    var names := st.Names(s.id);
    var n := NumberAll(Numbering(st.cells, |s.args|, map[], map[]), names, g.order(names.Keys));
    st.(cells := n.cells, stack := st.stack[..|st.stack| - 1], locals := st.locals[s.id := n.locals],
        closed := st.closed[s.id := n.closed])
  }

  /** The visit of a node. */
  function Track(g: Setting, st: Tracking, e: Node): (r: Tracking)
    requires st.stack != []
    ensures r.stack == st.stack
    decreases Weight(e), 1
  {
    PartsWeighLess(e);
    if ScopeOf(e).Some? then TrackScope(g, st, ScopeOf(e).value)
    else if e.Try? then TrackAll(g, Apply(g, Track(g, st, e.body), UseOf(e)), Parts(e).rest)
    else Apply(g, TrackAll(g, st, Parts(e)), UseOf(e))
  }

  function TrackAll(g: Setting, st: Tracking, es: Nodes): (r: Tracking)
    requires st.stack != []
    ensures r.stack == st.stack
    decreases WeightAll(es), 0
  {
    match es
    case NoNodes => st
    case More(e, rest) => TrackAll(g, Track(g, st, e), rest)
  }

  function TrackScope(g: Setting, st: Tracking, s: Scope): (r: Tracking)
    ensures r.stack == st.stack
    decreases Weight(s.body), 2
  {
    Leave(g, Track(g, Enter(st, s), s.body), s)
  }

  // ----- the layout the compiler reads -----

  /** `reg_p`, `depth` and `idx` of a local. */
  function LocOf(st: Tracking, c: nat): Loc {
    if c >= |st.cells| then Reg(0)
    else
      var l := st.cells[c];
      match l.kind
      case Register => Reg(l.idx)
      case Arg => Reg(l.idx)
      case Own => Clo(0, l.idx)
      case Global => Clo(l.depth, l.idx)
      case Access => Clo(l.depth, if l.owned < |st.cells| then st.cells[l.owned].idx else 0)
  }

  function LayoutOf(st: Tracking): Layout {
    Layout(map id | id in st.places :: LocOf(st, st.places[id]),
           map s | s in st.locals :: |st.locals[s]|,
           map s | s in st.closed :: |st.closed[s]|)
  }

  const Nothing := Tracking([], map[], map[], [], map[], map[])

  /** Scope analysis of a program. */
  function Analyse(g: Setting, top: Scope): Tracking { TrackScope(g, Nothing, top) }

  // ----- what the analysis keeps -----

  ghost predicate Orders(g: Setting) {
    forall s {:trigger g.order(s)} ::
      (forall x :: x in g.order(s) <==> x in s) &&
      (forall i, j :: 0 <= i < j < |g.order(s)| ==> g.order(s)[i] != g.order(s)[j])
  }

  ghost predicate Finished(st: Tracking, scope: nat) { scope in st.closed }

  ghost predicate TableCell(st: Tracking, scope: nat, x: string) {
    scope in st.tables && x in st.tables[scope]
  }

  ghost predicate CellOk(st: Tracking, scope: nat, x: string)
    requires TableCell(st, scope, x)
  {
    var c := st.tables[scope][x];
    c < |st.cells| && st.cells[c].kind in {Register, Own, Arg} &&
    (!Finished(st, scope) ==> (st.cells[c].fixed <==> st.cells[c].kind == Arg))
  }

  /** A finished scope recorded the index of each of its locals, under the heading that fits its kind. */
  ghost predicate Numbered(st: Tracking, scope: nat, x: string)
    requires TableCell(st, scope, x) && Finished(st, scope) && scope in st.locals
    requires st.tables[scope][x] < |st.cells|
  {
    var l := st.cells[st.tables[scope][x]];
    if InRegister(l) then x in st.locals[scope] && st.locals[scope][x] == l.idx
    else x in st.closed[scope] && st.closed[scope][x] == l.idx
  }

  /** No two variables of a scope share a register or a slot; the slots are those of a closure of that size. */
  ghost predicate Injective(m: map<string, int>) {
    forall x, y :: x in m && y in m && x != y ==> m[x] != m[y]
  }

  ghost predicate Within(m: map<string, int>) { forall x :: x in m ==> 0 <= m[x] < |m| }

  ghost predicate FinishedOk(st: Tracking, scope: nat)
    requires Finished(st, scope)
  {
    scope in st.locals && scope in st.tables && scope !in st.stack &&
    Injective(st.closed[scope]) && Within(st.closed[scope]) && Injective(st.locals[scope]) &&
    (forall x :: x in st.tables[scope] ==> st.tables[scope][x] < |st.cells| && Numbered(st, scope, x))
  }

  ghost predicate Shared(st: Tracking, s: nat, x: string, t: nat, y: string) {
    TableCell(st, s, x) && TableCell(st, t, y) && st.tables[s][x] == st.tables[t][y]
  }

  /** The invariant of the analysis: every variable has a cell of its own. */
  ghost predicate Inv(st: Tracking) {
    (forall i :: 0 <= i < |st.stack| ==> st.stack[i] in st.tables) &&
    (forall i, j :: 0 <= i < j < |st.stack| ==> st.stack[i] != st.stack[j]) &&
    (forall s, x :: TableCell(st, s, x) ==> CellOk(st, s, x)) &&
    (forall s, x, t, y :: Shared(st, s, x, t, y) ==> s == t && x == y) &&
    (forall s :: Finished(st, s) ==> FinishedOk(st, s)) &&
    (forall s :: s in st.tables ==> Finished(st, s) || s in st.stack) &&
    st.locals.Keys == st.closed.Keys
  }

  /** A local only ever turns from a register local into a closed-over one; arguments keep their position. */
  ghost predicate Evolved(c: Cell, c': Cell) {
    match c.kind
    case Access => c' == c
    case Global => c' == c
    case Own => c'.kind == Own
    case Register => c'.kind == Register || c'.kind == Own
    case Arg => c' == c || c'.kind == Own
  }

  /** `st'` is a later state of the analysis; of the nodes it placed since, the ids are in `ids`. */
  ghost predicate Later(st: Tracking, st': Tracking, ids: set<nat>) {
    |st.cells| <= |st'.cells| && st.tables.Keys <= st'.tables.Keys &&
    (forall i :: 0 <= i < |st.cells| ==> Evolved(st.cells[i], st'.cells[i])) &&
    (forall s, x :: TableCell(st, s, x) ==> TableCell(st', s, x) && st'.tables[s][x] == st.tables[s][x]) &&
    (forall s :: Finished(st, s) ==>
       Finished(st', s) && st'.closed[s] == st.closed[s] && s in st.locals && s in st'.locals &&
       st'.locals[s] == st.locals[s] && s in st.tables && s in st'.tables && st'.tables[s] == st.tables[s]) &&
    (forall s, x :: s in st.tables && TableCell(st', s, x) && !TableCell(st, s, x) ==>
       st'.tables[s][x] < |st'.cells| && st'.cells[st'.tables[s][x]].kind != Arg) &&
    (forall id :: id in st.places && id !in ids ==> id in st'.places && st'.places[id] == st.places[id]) &&
    (forall id :: id in st'.places && id !in st.places ==> id in ids)
  }

  lemma LaterTwice(a: Tracking, b: Tracking, c: Tracking, ids: set<nat>, ids': set<nat>)
    requires Later(a, b, ids) && Later(b, c, ids')
    ensures Later(a, c, ids + ids')
  {}

  lemma LaterMore(a: Tracking, b: Tracking, ids: set<nat>, ids': set<nat>)
    requires Later(a, b, ids) && ids <= ids'
    ensures Later(a, b, ids')
  {}

  /** What the cell of a node that names `name` inside the scopes `stack` says. */
  ghost predicate Resolved(g: Setting, st: Tracking, id: nat, name: string, stack: seq<nat>) {
    id in st.places && st.places[id] < |st.cells| && stack != [] &&
    var c, n := st.places[id], |stack|;
    var l := st.cells[c];
    match l.kind
    case Access =>
      1 <= l.depth < n && TableCell(st, stack[n - 1 - l.depth], name) &&
      st.tables[stack[n - 1 - l.depth]][name] == l.owned && l.owned < |st.cells| && st.cells[l.owned].kind == Own
    case Global => l.depth == n && name in g.globals && l.idx == g.globals[name]
    case _ => TableCell(st, stack[n - 1], name) && st.tables[stack[n - 1]][name] == c
  }

  lemma ResolvedLater(g: Setting, st: Tracking, st': Tracking, ids: set<nat>, id: nat, name: string, stack: seq<nat>)
    requires Later(st, st', ids) && id !in ids && Resolved(g, st, id, name, stack)
    ensures Resolved(g, st', id, name, stack)
  {}

  // ----- using a name -----

  lemma PlaceOk(st: Tracking, id: nat, c: Cell)
    requires Inv(st)
    ensures Inv(Place(st, id, c)) && Later(st, Place(st, id, c), {id})
  {
    hide Injective, Within;
    var st' := Place(st, id, c);
    forall s, x | TableCell(st', s, x) ensures CellOk(st', s, x) { assert TableCell(st, s, x) && CellOk(st, s, x); }
    forall s, x, t, y | Shared(st', s, x, t, y) ensures s == t && x == y { assert Shared(st, s, x, t, y); }
    forall s | Finished(st', s) ensures FinishedOk(st', s) { assert Finished(st, s) && FinishedOk(st, s); }
  }

  /** A variable of an unfinished scope moves to its closure. */
  function Captured(st: Tracking, scope: nat, name: string): Tracking
    requires TableCell(st, scope, name) && st.tables[scope][name] < |st.cells|
  {
    var c := st.tables[scope][name];
    st.(cells := st.cells[c := MakeClosure(st.cells[c])])
  }

  lemma CapturedOk(st: Tracking, scope: nat, name: string)
    requires Inv(st) && TableCell(st, scope, name) && scope in st.stack
    ensures CellOk(st, scope, name) && Inv(Captured(st, scope, name)) && Later(st, Captured(st, scope, name), {})
  {
    hide Injective, Within;
    assert CellOk(st, scope, name);
    assert !Finished(st, scope);
    var c := st.tables[scope][name];
    var st' := Captured(st, scope, name);
    forall s, x | TableCell(st', s, x) ensures CellOk(st', s, x) { assert TableCell(st, s, x) && CellOk(st, s, x); }
    forall s, x, t, y | Shared(st', s, x, t, y) ensures s == t && x == y { assert Shared(st, s, x, t, y); }
    forall s | Finished(st', s) ensures FinishedOk(st', s) {
      assert Finished(st, s) && FinishedOk(st, s);
      forall x | x in st'.tables[s] ensures st'.tables[s][x] < |st'.cells| && Numbered(st', s, x) {
        assert TableCell(st, s, x) && Numbered(st, s, x);
        assert !Shared(st, s, x, scope, name);
      }
    }
  }

  lemma ReachOk(g: Setting, st: Tracking, id: nat, name: string, d: nat, depth: nat)
    requires Inv(st) && 1 <= d < |st.stack| && name in st.Names(st.Out(d))
    ensures var st' := Reach(st, id, name, d, depth);
      Inv(st') && Later(st, st', {id}) && (depth == d ==> Resolved(g, st', id, name, st.stack)) &&
      st'.stack == st.stack && st'.tables == st.tables
  {
    hide Inv;
    var scope := st.Out(d);
    InStack(st, d);
    CapturedOk(st, scope, name);
    var st1 := Captured(st, scope, name);
    PlaceOk(st1, id, Cell(Access, 0, false, st.tables[scope][name], depth));
    LaterTwice(st, st1, Reach(st, id, name, d, depth), {}, {id});
    assert {} + {id} == {id};
  }

  lemma InStack(st: Tracking, d: nat)
    requires Inv(st) && d < |st.stack|
    ensures st.Out(d) in st.tables && st.Out(d) in st.stack
  {}

  /** A name enters the table of an unfinished scope with the newest cell. */
  function Bind(st: Tracking, scope: nat, name: string): Tracking
    requires st.cells != []
  {
    st.(tables := st.tables[scope := st.Names(scope)[name := |st.cells| - 1]])
  }

  ghost predicate Unused(st: Tracking, c: nat) { forall s, x :: TableCell(st, s, x) ==> st.tables[s][x] != c }

  /** A finished scope whose record, table and cells stay as they are. */
  lemma SameFinished(st: Tracking, st': Tracking, s: nat)
    requires Finished(st, s) && FinishedOk(st, s) && Finished(st', s) && s in st'.locals && s in st'.tables
    requires st'.cells == st.cells && st'.stack == st.stack && st'.closed[s] == st.closed[s]
    requires st'.locals[s] == st.locals[s] && st'.tables[s] == st.tables[s]
    ensures FinishedOk(st', s)
  {
    hide Injective, Within;
    forall x | x in st'.tables[s] ensures st'.tables[s][x] < |st'.cells| && Numbered(st', s, x) {
      assert Numbered(st, s, x);
    }
  }

  lemma BindLater(base: Tracking, st: Tracking, scope: nat, name: string, ids: set<nat>)
    requires Later(base, st, ids) && !Finished(base, scope)
    requires !TableCell(st, scope, name) && scope in st.tables && st.cells != []
    requires scope in base.tables ==> st.cells[|st.cells| - 1].kind != Arg
    ensures Later(base, Bind(st, scope, name), ids)
  {
    hide Injective, Within, Numbered, CellOk, Bind, Evolved;
    BindTables(st, scope, name);
    var st' := Bind(st, scope, name);
    assert forall s, x :: TableCell(base, s, x) ==> TableCell(st', s, x) && st'.tables[s][x] == base.tables[s][x];
    assert forall s :: Finished(base, s) ==> st'.tables[s] == base.tables[s];
  }

  lemma BindTables(st: Tracking, scope: nat, name: string)
    requires !TableCell(st, scope, name) && scope in st.tables && st.cells != []
    ensures var st' := Bind(st, scope, name);
      st' == st.(tables := st'.tables) && st'.tables.Keys == st.tables.Keys &&
      (forall s :: s in st.tables && s != scope ==> st'.tables[s] == st.tables[s]) &&
      (forall s, x :: TableCell(st', s, x) <==> TableCell(st, s, x) || (s == scope && x == name)) &&
      (forall s, x :: TableCell(st, s, x) ==> st'.tables[s][x] == st.tables[s][x]) &&
      st'.tables[scope][name] == |st.cells| - 1
  {}

  lemma BindOk(st: Tracking, scope: nat, name: string)
    requires Inv(st) && scope in st.stack && !TableCell(st, scope, name)
    requires st.cells != [] && Unused(st, |st.cells| - 1)
    requires var c := st.cells[|st.cells| - 1]; c.kind in {Register, Arg} && (c.fixed <==> c.kind == Arg)
    ensures Inv(Bind(st, scope, name))
  {
    hide FinishedOk, Bind;
    FinishedIsOff(st);
    BindTables(st, scope, name);
    var st' := Bind(st, scope, name);
    forall s, x | TableCell(st', s, x) ensures CellOk(st', s, x) {
      if !(s == scope && x == name) { assert TableCell(st, s, x) && CellOk(st, s, x); }
    }
    forall s, x, t, y | Shared(st', s, x, t, y) ensures s == t && x == y {
      if TableCell(st, s, x) && TableCell(st, t, y) { assert Shared(st, s, x, t, y); }
    }
    forall s | Finished(st', s) ensures FinishedOk(st', s) {
      assert Finished(st, s);
      SameFinished(st, st', s);
    }
  }

  lemma FinishedIsOff(st: Tracking)
    requires Inv(st)
    ensures forall s :: Finished(st, s) ==> s !in st.stack && s in st.tables && s in st.locals
  {}

  lemma NewCellUnused(st: Tracking, id: nat, c: Cell)
    requires Inv(st)
    ensures Unused(Place(st, id, c), |st.cells|)
  {
    hide FinishedOk;
    var st' := Place(st, id, c);
    forall s, x | TableCell(st', s, x) ensures st'.tables[s][x] != |st.cells| {
      assert TableCell(st, s, x) && CellOk(st, s, x);
    }
  }

  lemma DeclareOk(g: Setting, st: Tracking, id: nat, name: string)
    requires Inv(st) && st.stack != [] && name !in st.Names(st.Current())
    ensures var st' := Declare(st, id, name);
      Inv(st') && Later(st, st', {id}) && Resolved(g, st', id, name, st.stack) && st'.stack == st.stack
  {
    hide Inv, Later;
    var c := Cell(Register, 0, false, 0, 0);
    var st1 := Place(st, id, c);
    InStack(st, 0);
    PlaceOk(st, id, c);
    NewCellUnused(st, id, c);
    FinishedIsOff(st);
    BindOk(st1, st.Current(), name);
    BindLater(st, st1, st.Current(), name, {id});
  }

  /** The places of nodes are no part of the invariant. */
  lemma PlacesFree(st: Tracking, places: map<nat, nat>)
    requires Inv(st)
    ensures Inv(st.(places := places))
  {
    hide Injective, Within;
    var st' := st.(places := places);
    forall s, x | TableCell(st', s, x) ensures CellOk(st', s, x) { assert TableCell(st, s, x) && CellOk(st, s, x); }
    forall s, x, t, y | Shared(st', s, x, t, y) ensures s == t && x == y { assert Shared(st, s, x, t, y); }
    forall s | Finished(st', s) ensures FinishedOk(st', s) { assert Finished(st, s) && FinishedOk(st, s); }
  }

  /** A name found in the current scope. */
  lemma FoundOk(g: Setting, st: Tracking, id: nat, name: string)
    requires Inv(st) && st.stack != [] && name in st.Names(st.Current())
    ensures var st' := st.(places := st.places[id := st.Names(st.Current())[name]]);
      Inv(st') && Later(st, st', {id}) && Resolved(g, st', id, name, st.stack)
  {
    hide FinishedOk;
    FinishedIsOff(st);
    InStack(st, 0);
    assert CellOk(st, st.Current(), name);
    PlacesFree(st, st.places[id := st.Names(st.Current())[name]]);
  }

  lemma {:induction false} ReachAllOk(g: Setting, st: Tracking, id: nat, name: string, d: nat)
    requires Inv(st) && 1 <= d
    ensures var st' := ReachAll(st, id, name, d);
      Inv(st') && Later(st, st', {id}) && st'.stack == st.stack && st'.tables == st.tables
    decreases |st.stack| - d
  {
    hide Inv, Later, Resolved;
    SameLater(st);
    LaterMore(st, st, {}, {id});
    if d < |st.stack| {
      if name in st.Names(st.Out(d)) {
        var st1 := Reach(st, id, name, d, d - 1);
        ReachOk(g, st, id, name, d, d - 1);
        ReachAllOk(g, st1, id, name, d + 1);
        LaterTwice(st, st1, ReachAll(st1, id, name, d + 1), {id}, {id});
        assert {id} + {id} == {id};
      } else {
        ReachAllOk(g, st, id, name, d + 1);
      }
    }
  }

  lemma SameLater(st: Tracking)
    requires Inv(st)
    ensures Later(st, st, {})
  {
    hide Injective, Within;
    forall s | Finished(st, s) ensures s in st.locals && s in st.tables { assert FinishedOk(st, s); }
  }

  function IdOf(u: Use): set<nat> { if u.NoUse? then {} else {u.id} }

  /** A node that uses a name is resolved; a look-up may find nothing, if the name is no global either. */
  ghost predicate Answered(g: Setting, st: Tracking, u: Use, stack: seq<nat>) {
    match u
    case NoUse => true
    case Lookup(id, name) => Resolved(g, st, id, name, stack) || (id !in st.places && name !in g.globals)
    case Define(id, name) => Resolved(g, st, id, name, stack)
    case Rebind(id, name) => Resolved(g, st, id, name, stack)
  }

  lemma ApplyOk(g: Setting, st: Tracking, u: Use)
    requires Inv(st) && st.stack != [] && IdOf(u) !! st.places.Keys
    ensures var st' := Apply(g, st, u);
      Inv(st') && Later(st, st', IdOf(u)) && Answered(g, st', u, st.stack)
  {
    hide Inv, Later, Resolved, Declare, Reach, ReachAll, Enclosing;
    SameLater(st);
    if !u.NoUse? {
      LaterMore(st, st, {}, {u.id});
      EnclosingHas(st, u.name, 1);
      if u.name in st.Names(st.Current()) {
        FoundOk(g, st, u.id, u.name);
      } else if u.Rebind? {
        var st1 := ReachAll(st, u.id, u.name, 1);
        ReachAllOk(g, st, u.id, u.name, 1);
        DeclareOk(g, st1, u.id, u.name);
        LaterTwice(st, st1, Declare(st1, u.id, u.name), {u.id}, {u.id});
        assert {u.id} + {u.id} == {u.id};
      } else if Enclosing(st, u.name, 1).Some? {
        ReachOk(g, st, u.id, u.name, Enclosing(st, u.name, 1).value, Enclosing(st, u.name, 1).value);
      } else if u.Define? {
        DeclareOk(g, st, u.id, u.name);
      } else if u.name in g.globals {
        GlobalOk(g, st, u.id, u.name);
      }
    }
  }

  lemma GlobalOk(g: Setting, st: Tracking, id: nat, name: string)
    requires Inv(st) && st.stack != [] && name in g.globals
    ensures var st' := Place(st, id, Cell(Global, g.globals[name], true, 0, |st.stack|));
      Inv(st') && Later(st, st', {id}) && Resolved(g, st', id, name, st.stack)
  {
    hide Inv;
    PlaceOk(st, id, Cell(Global, g.globals[name], true, 0, |st.stack|));
  }

  /** The variable a name means where it stands: of the current scope, or else of the nearest enclosing one. */
  function Variable(st: Tracking, name: string): Option<nat>
    requires st.stack != []
  {
    if name in st.Names(st.Current()) then Some(st.Names(st.Current())[name])
    else
      match Enclosing(st, name, 1)
      case Some(d) => EnclosingHas(st, name, 1); Some(st.Names(st.Out(d))[name])
      case None => None
  }

  /** The cell that holds the value of a node's variable. */
  function Holder(st: Tracking, id: nat): Option<nat> {
    if id in st.places && st.places[id] < |st.cells| then
      Some(if st.cells[st.places[id]].kind == Access then st.cells[st.places[id]].owned else st.places[id])
    else None
  }

  /** A look-up and an assignment use the variable the name means. */
  lemma LookupMeansVariable(g: Setting, st: Tracking, id: nat, name: string)
    requires Inv(st) && st.stack != [] && Variable(st, name).Some?
    ensures Holder(TrackLookup(g, st, id, name), id) == Variable(st, name)
    ensures Holder(TrackDefine(st, id, name), id) == Variable(st, name)
  {
    hide FinishedOk;
    EnclosingHas(st, name, 1);
    InStack(st, 0);
    if name in st.Names(st.Current()) {
      assert TableCell(st, st.Current(), name) && CellOk(st, st.Current(), name);
    } else {
      var scope := st.Out(Enclosing(st, name, 1).value);
      InStack(st, Enclosing(st, name, 1).value);
      assert TableCell(st, scope, name) && CellOk(st, scope, name);
    }
  }

  /**
   An operator assignment, and the variable of a `rescue`, use the variable the name means exactly when that is
   a variable of their own scope; a variable of an enclosing scope is left alone and a new one declared.
   */
  lemma RebindMeansVariable(st: Tracking, id: nat, name: string)
    requires Inv(st) && st.stack != [] && Variable(st, name).Some?
    ensures Holder(TrackRebind(st, id, name), id) == Variable(st, name) <==> name in st.Names(st.Current())
  {
    hide FinishedOk, ReachAll;
    EnclosingHas(st, name, 1);
    InStack(st, 0);
    if name in st.Names(st.Current()) {
      assert TableCell(st, st.Current(), name) && CellOk(st, st.Current(), name);
    } else {
      var scope := st.Out(Enclosing(st, name, 1).value);
      InStack(st, Enclosing(st, name, 1).value);
      assert TableCell(st, scope, name) && CellOk(st, scope, name);
      ReachAllGrows(st, id, name, 1);
      ReachAllStack(st, id, name, 1);
    }
  }

  lemma {:induction false} ReachAllGrows(st: Tracking, id: nat, name: string, d: nat)
    requires 1 <= d
    ensures |ReachAll(st, id, name, d).cells| >= |st.cells|
    decreases |st.stack| - d
  {
    if d < |st.stack| {
      ReachAllGrows(if name in st.Names(st.Out(d)) then Reach(st, id, name, d, d - 1) else st, id, name, d + 1);
    }
  }

  // ----- entering and leaving a scope -----

  /** The position of a variable that is still a register argument. */
  function ArgAt(st: Tracking, scope: nat, x: string): Option<int> {
    if scope in st.tables && x in st.tables[scope] && st.tables[scope][x] < |st.cells| &&
       st.cells[st.tables[scope][x]].kind == Arg
    then Some(st.cells[st.tables[scope][x]].idx) else None
  }

  /** The register arguments of a scope stand in positions of their own below `n`; only `self` is at -1. */
  ghost predicate ArgsApart(st: Tracking, scope: nat, n: int) {
    (forall x :: ArgAt(st, scope, x) == Some(-1) ==> x == "self") &&
    (forall x :: ArgAt(st, scope, x).Some? ==> -1 <= ArgAt(st, scope, x).value < n) &&
    (forall x, y :: ArgAt(st, scope, x).Some? && ArgAt(st, scope, x) == ArgAt(st, scope, y) ==> x == y)
  }

  lemma ArgStays(st: Tracking, st': Tracking, ids: set<nat>, scope: nat, x: string)
    requires Inv(st) && Later(st, st', ids) && scope in st.tables && ArgAt(st', scope, x).Some?
    ensures ArgAt(st, scope, x) == ArgAt(st', scope, x)
  {
    hide FinishedOk;
    if TableCell(st, scope, x) { assert CellOk(st, scope, x); }
    assert TableCell(st', scope, x);
  }

  lemma ArgsStayApart(st: Tracking, st': Tracking, ids: set<nat>, scope: nat, n: int)
    requires Inv(st) && Later(st, st', ids) && scope in st.tables && ArgsApart(st, scope, n)
    ensures ArgsApart(st', scope, n)
  {
    hide Inv, Later, ArgAt;
    forall x | ArgAt(st', scope, x).Some? ensures ArgAt(st, scope, x) == ArgAt(st', scope, x) {
      ArgStays(st, st', ids, scope, x);
    }
    forall x, y | ArgAt(st', scope, x).Some? && ArgAt(st', scope, x) == ArgAt(st', scope, y) ensures x == y {
      assert ArgAt(st, scope, x) == ArgAt(st', scope, x) && ArgAt(st, scope, y) == ArgAt(st', scope, y);
    }
  }

  /** In the middle of entering a scope: arguments stand below `n`, and at -1 only if `self` was entered. */
  ghost predicate Entering(base: Tracking, st: Tracking, scope: nat, n: int, self: bool, ids: set<nat>) {
    Inv(base) && Inv(st) && Later(base, st, ids) && scope in st.stack && scope !in base.tables &&
    st.tables.Keys == base.tables.Keys + {scope} && ArgsApart(st, scope, n) &&
    (!self ==> forall x :: ArgAt(st, scope, x) != Some(-1))
  }

  lemma EnterArgumentOk(g: Setting, base: Tracking, st: Tracking, a: Argument, position: int, n: int, ids: set<nat>)
    requires st.stack != [] && 0 <= n && a.id !in base.places && a.id !in ids
    requires Entering(base, st, st.Current(), n, false, ids) && !TableCell(st, st.Current(), a.name)
    requires position == n || (position == -1 && a.name == "self")
    ensures var st' := EnterArgument(st, st.Current(), a, position);
      Entering(base, st', st.Current(), if position == n then n + 1 else n, position == -1, ids + {a.id}) &&
      Resolved(g, st', a.id, a.name, st.stack) && st'.stack == st.stack
  {
    hide Inv, Later, ArgsApart, CellOk, ArgAt;
    var scope := st.Current();
    var c := Cell(Arg, position, true, 0, 0);
    var st1 := Place(st, a.id, c);
    PlaceOk(st, a.id, c);
    LaterTwice(base, st, st1, ids, {a.id});
    NewCellUnused(st, a.id, c);
    FinishedInTables(base);
    InStack(st, 0);
    BindOk(st1, scope, a.name);
    BindLater(base, st1, scope, a.name, ids + {a.id});
    EnteredApart(st, scope, a, position, n);
  }

  lemma EnteringScope(base: Tracking, st: Tracking, scope: nat, n: int, ids: set<nat>)
    requires Entering(base, st, scope, n, false, ids)
    ensures scope in st.tables
  {}

  lemma FinishedInTables(st: Tracking)
    requires Inv(st)
    ensures forall s :: Finished(st, s) ==> s in st.tables
  {}

  lemma EnteredApart(st: Tracking, scope: nat, a: Argument, position: int, n: int)
    requires Inv(st) && 0 <= n && ArgsApart(st, scope, n) && (forall x :: ArgAt(st, scope, x) != Some(-1))
    requires !TableCell(st, scope, a.name) && scope in st.tables
    requires position == n || (position == -1 && a.name == "self")
    ensures var st' := EnterArgument(st, scope, a, position);
      ArgsApart(st', scope, if position == n then n + 1 else n) &&
      (position == n ==> forall x :: ArgAt(st', scope, x) != Some(-1))
  {
    hide FinishedOk;
    var st' := EnterArgument(st, scope, a, position);
    forall x ensures ArgAt(st', scope, x) == if x == a.name then Some(position) else ArgAt(st, scope, x) {
      if TableCell(st, scope, x) { assert CellOk(st, scope, x); }
    }
    hide Inv;
    hide ArgAt;
  }

  ghost predicate DistinctArgs(s: Scope) {
    (forall i, j :: 0 <= i < j < |s.args| ==> s.args[i].id != s.args[j].id && s.args[i].name != s.args[j].name) &&
    (s.self.Some? ==> s.self.value.name == "self") &&
    (s.self.Some? ==> forall i :: 0 <= i < |s.args| ==> s.args[i].id != s.self.value.id && s.args[i].name != "self")
  }

  function ArgIds(s: Scope, n: nat): set<nat>
    requires n <= |s.args|
  {
    set i | 0 <= i < n :: s.args[i].id
  }

  /** A parameter's place is the cell of its name, which keeps its position as long as it stays in a register. */
  ghost predicate Stands(st: Tracking, scope: nat, a: Argument, position: int) {
    a.id in st.places && st.places[a.id] < |st.cells| && TableCell(st, scope, a.name) &&
    st.tables[scope][a.name] == st.places[a.id] &&
    (st.cells[st.places[a.id]].kind == Own || st.cells[st.places[a.id]] == Cell(Arg, position, true, 0, 0))
  }

  lemma StandsLater(st: Tracking, st': Tracking, ids: set<nat>, scope: nat, a: Argument, position: int)
    requires Later(st, st', ids) && a.id !in ids && Stands(st, scope, a, position)
    ensures Stands(st', scope, a, position)
  {}

  ghost predicate ArgsResolved(g: Setting, st: Tracking, s: Scope, n: nat, stack: seq<nat>)
    requires n <= |s.args|
  {
    forall i :: 0 <= i < n ==>
      Resolved(g, st, s.args[i].id, s.args[i].name, stack) && Stands(st, s.id, s.args[i], i)
  }

  /** The names seen so far are those of the first `n` arguments. */
  ghost predicate OnlyArgs(st: Tracking, s: Scope, n: nat)
    requires n <= |s.args|
  {
    forall x :: TableCell(st, s.id, x) ==> exists i :: 0 <= i < n && s.args[i].name == x
  }

  lemma EnteredStays(g: Setting, st: Tracking, scope: nat, a: Argument, position: int, id: nat, name: string,
                     stack: seq<nat>)
    requires !TableCell(st, scope, a.name) && Resolved(g, st, id, name, stack) && id != a.id
    ensures Resolved(g, EnterArgument(st, scope, a, position), id, name, stack)
  {}

  lemma EnteredStands(st: Tracking, scope: nat, a: Argument, position: int)
    requires !TableCell(st, scope, a.name) && scope in st.tables
    ensures Stands(EnterArgument(st, scope, a, position), scope, a, position)
    ensures forall b, i :: Stands(st, scope, b, i) && b.id != a.id ==>
      Stands(EnterArgument(st, scope, a, position), scope, b, i)
  {}

  lemma OneMoreArg(st: Tracking, s: Scope, i: nat)
    requires i < |s.args| && OnlyArgs(st, s, i)
    ensures OnlyArgs(EnterArgument(st, s.id, s.args[i], i), s, i + 1)
  {
    var st' := EnterArgument(st, s.id, s.args[i], i);
    forall x | TableCell(st', s.id, x) ensures exists j :: 0 <= j < i + 1 && s.args[j].name == x {
      if TableCell(st, s.id, x) {
        var j :| 0 <= j < i && s.args[j].name == x;
      } else {
        assert s.args[i].name == x;
      }
    }
  }

  lemma {:induction false} EnterArgumentsOk(g: Setting, base: Tracking, st: Tracking, s: Scope, i: nat)
    requires i <= |s.args| && DistinctArgs(s) && ArgIds(s, |s.args|) !! base.places.Keys
    requires st.stack != [] && st.Current() == s.id && Entering(base, st, s.id, i, false, ArgIds(s, i))
    requires ArgsResolved(g, st, s, i, st.stack) && OnlyArgs(st, s, i)
    ensures var st' := EnterArguments(st, s, i);
      Entering(base, st', s.id, |s.args|, false, ArgIds(s, |s.args|)) && ArgsResolved(g, st', s, |s.args|, st.stack) &&
      OnlyArgs(st', s, |s.args|)
    decreases |s.args| - i
  {
    hide Inv, Later, ArgsApart, ArgAt, Resolved, Entering, Stands;
    if i < |s.args| {
      EnteringScope(base, st, s.id, i, ArgIds(s, i));
      var a := s.args[i];
      var st1 := EnterArgument(st, s.id, a, i);
      assert a.id in ArgIds(s, |s.args|);
      EnterArgumentOk(g, base, st, a, i, i, ArgIds(s, i));
      assert ArgIds(s, i + 1) == ArgIds(s, i) + {a.id};
      OneMoreArg(st, s, i);
      EnteredStands(st, s.id, a, i);
      forall j | 0 <= j < i ensures Resolved(g, st1, s.args[j].id, s.args[j].name, st.stack) {
        EnteredStays(g, st, s.id, a, i, s.args[j].id, s.args[j].name, st.stack);
      }
      EnterArgumentsOk(g, base, st1, s, i + 1);
    }
  }

  // ----- numbering the locals of a scope -----

  /** A name table whose variables have cells of their own, its arguments apart below `argc`. */
  ghost predicate NamesOk(cells: seq<Cell>, names: Names, argc: nat) {
    (forall x :: x in names ==> names[x] < |cells| && cells[names[x]].kind in {Register, Own, Arg}) &&
    (forall x :: x in names ==> (cells[names[x]].fixed <==> cells[names[x]].kind == Arg)) &&
    (forall x, y :: x in names && y in names && names[x] == names[y] ==> x == y) &&
    (forall x :: x in names && cells[names[x]].kind == Arg ==> ArgIndex(cells[names[x]].idx, argc, x)) &&
    (forall x, y :: SamePosition(cells, names, x, y) ==> x == y)
  }

  /** Only `self` stands at -1. */
  predicate ArgIndex(i: int, argc: nat, x: string) { -1 <= i < argc && (i == -1 ==> x == "self") }

  ghost predicate SamePosition(cells: seq<Cell>, names: Names, x: string, y: string) {
    x in names && y in names && names[x] < |cells| && names[y] < |cells| && cells[names[x]].kind == Arg &&
    cells[names[y]].kind == Arg && cells[names[x]].idx == cells[names[y]].idx
  }

  ghost predicate Uses(m: map<string, int>, r: int) { exists x :: x in m && m[x] == r }

  /** Registers handed out: no two variables share one, and from `argc` on there is no gap below `regs`. */
  ghost predicate Registers(m: map<string, int>, argc: nat, regs: nat) {
    Injective(m) && (forall x :: x in m ==> ArgIndex(m[x], regs, x)) && (forall r :: argc <= r < regs ==> Uses(m, r))
  }

  ghost predicate Recorded(n: Numbering, names: Names, x: string)
    requires x in names && names[x] < |n.cells|
  {
    var l := n.cells[names[x]];
    if InRegister(l) then x in n.locals && n.locals[x] == l.idx else x in n.closed && n.closed[x] == l.idx
  }

  /** Nothing but the indices of the cells of names not in `left` has changed. */
  ghost predicate OnlyIndices(cells: seq<Cell>, names: Names, n: Numbering, left: seq<string>) {
    |n.cells| == |cells| &&
    (forall c :: 0 <= c < |cells| ==> n.cells[c] == cells[c].(idx := n.cells[c].idx)) &&
    (forall c :: 0 <= c < |cells| && n.cells[c] != cells[c] ==> exists x :: x in names && x !in left && names[x] == c)
  }

  ghost predicate LocalOk(cells: seq<Cell>, names: Names, argc: nat, n: Numbering, x: string)
    requires x in names && names[x] < |cells| && x in n.locals
  {
    if cells[names[x]].kind == Arg then n.locals[x] == cells[names[x]].idx else argc <= n.locals[x]
  }

  /** The names not in `left` are numbered. */
  ghost predicate NumberingOk(cells: seq<Cell>, names: Names, argc: nat, n: Numbering, left: seq<string>)
    requires NamesOk(cells, names, argc)
  {
    OnlyIndices(cells, names, n, left) && argc <= n.regs &&
    (forall x :: x in n.locals || x in n.closed ==> x in names && x !in left) &&
    (forall x :: x in names && x !in left ==> Recorded(n, names, x)) &&
    (forall x :: x in n.locals ==> LocalOk(cells, names, argc, n, x)) &&
    Injective(n.closed) && Within(n.closed) && Registers(n.locals, argc, n.regs)
  }

  lemma OneMoreInside(m: map<string, int>, x: string)
    requires x !in m && Injective(m) && Within(m)
    ensures Injective(m[x := |m|]) && Within(m[x := |m|])
  {}

  lemma OneMoreRegister(m: map<string, int>, argc: nat, regs: nat, x: string)
    requires x !in m && argc <= regs && Registers(m, argc, regs)
    ensures Registers(m[x := regs], argc, regs + 1)
  {
    var m' := m[x := regs];
    forall r | argc <= r < regs + 1 ensures Uses(m', r) {
      if r < regs {
        assert Uses(m, r);
        var y :| y in m && m[y] == r;
        assert y in m' && m'[y] == r;
      } else {
        assert x in m' && m'[x] == r;
      }
    }
  }

  lemma OneMoreArgument(m: map<string, int>, argc: nat, regs: nat, x: string, i: int)
    requires x !in m && argc <= regs && Registers(m, argc, regs) && ArgIndex(i, argc, x) && !Uses(m, i)
    ensures Registers(m[x := i], argc, regs)
  {
    var m' := m[x := i];
    forall r | argc <= r < regs ensures Uses(m', r) {
      assert Uses(m, r);
      var y :| y in m && m[y] == r;
      assert y in m' && m'[y] == r;
    }
  }

  lemma NumberOneIndices(cells: seq<Cell>, names: Names, n: Numbering, x: string, rest: seq<string>)
    requires OnlyIndices(cells, names, n, [x] + rest) && x in names && x !in rest && names[x] < |cells|
    ensures OnlyIndices(cells, names, NumberOne(n, x, names[x]), rest)
  {
    var c := names[x];
    var n' := NumberOne(n, x, c);
    forall d | 0 <= d < |cells| && n'.cells[d] != cells[d]
      ensures exists y :: y in names && y !in rest && names[y] == d
    {
      if d != c {
        var y :| y in names && y !in [x] + rest && names[y] == d;
        assert y !in rest;
      }
    }
  }

  lemma NumberOneRecorded(cells: seq<Cell>, names: Names, argc: nat, n: Numbering, x: string, y: string)
    requires NamesOk(cells, names, argc) && |n.cells| == |cells| && x in names && y in names && y != x
    requires x !in n.locals && x !in n.closed && Recorded(n, names, y)
    ensures Recorded(NumberOne(n, x, names[x]), names, y)
  {}

  lemma NumberOneMaps(cells: seq<Cell>, names: Names, argc: nat, n: Numbering, x: string, rest: seq<string>)
    requires NamesOk(cells, names, argc) && NumberingOk(cells, names, argc, n, [x] + rest)
    requires x in names && x !in rest
    ensures var n' := NumberOne(n, x, names[x]);
      Injective(n'.closed) && Within(n'.closed) && Registers(n'.locals, argc, n'.regs) && argc <= n'.regs &&
      (forall y :: y in n'.locals ==> y in names && LocalOk(cells, names, argc, n', y))
  {
    hide Registers, Injective, Within, Recorded, NamesOk;
    var c := names[x];
    assert c < |cells| && cells[c].kind in {Register, Own, Arg} && (cells[c].fixed <==> cells[c].kind == Arg) by {
      CellOfName(cells, names, argc, x);
    }
    var l := n.cells[c];
    var n' := NumberOne(n, x, c);
    assert x in [x] + rest;
    assert x !in n.locals && x !in n.closed;
    forall y | y in n.locals ensures y in names && y != x && names[y] < |cells| { CellOfName(cells, names, argc, y); }
    if !InRegister(l) {
      OneMoreInside(n.closed, x);
    } else if l.fixed {
      FreePosition(cells, names, argc, n, [x] + rest, x);
      OneMoreArgument(n.locals, argc, n.regs, x, l.idx);
    } else {
      OneMoreRegister(n.locals, argc, n.regs, x);
    }
  }

  lemma CellOfName(cells: seq<Cell>, names: Names, argc: nat, x: string)
    requires NamesOk(cells, names, argc) && x in names
    ensures names[x] < |cells| && cells[names[x]].kind in {Register, Own, Arg}
    ensures cells[names[x]].fixed <==> cells[names[x]].kind == Arg
    ensures cells[names[x]].kind == Arg ==> ArgIndex(cells[names[x]].idx, argc, x)
  {}

  /** No register handed out so far is the position of an argument still to be numbered. */
  lemma FreePosition(cells: seq<Cell>, names: Names, argc: nat, n: Numbering, left: seq<string>, x: string)
    requires NamesOk(cells, names, argc) && NumberingOk(cells, names, argc, n, left)
    requires x in names && x in left && cells[names[x]].kind == Arg
    ensures n.cells[names[x]] == cells[names[x]]
    ensures ArgIndex(cells[names[x]].idx, argc, x) && !Uses(n.locals, cells[names[x]].idx)
  {
    hide Registers, Injective, Within, Recorded;
    var i := cells[names[x]].idx;
    forall y | y in n.locals ensures n.locals[y] != i {
      assert LocalOk(cells, names, argc, n, y);
      assert !SamePosition(cells, names, x, y);
    }
  }

  lemma NumberOneOk(cells: seq<Cell>, names: Names, argc: nat, n: Numbering, x: string, rest: seq<string>)
    requires NamesOk(cells, names, argc) && NumberingOk(cells, names, argc, n, [x] + rest)
    requires x in names && x !in rest
    ensures NumberingOk(cells, names, argc, NumberOne(n, x, names[x]), rest)
  {
    hide Registers, Injective, Within, OnlyIndices, NamesOk, LocalOk;
    OnlyLength(cells, names, n, [x] + rest);
    CellOfName(cells, names, argc, x);
    NumberOneIndices(cells, names, n, x, rest);
    NumberOneMaps(cells, names, argc, n, x, rest);
    var n' := NumberOne(n, x, names[x]);
    assert x in [x] + rest;
    assert forall y :: y in rest ==> y in [x] + rest;
    forall y | y in names && y !in rest ensures names[y] < |cells| && Recorded(n', names, y) {
      CellOfName(cells, names, argc, y);
      if y != x {
        assert y !in [x] + rest;
        NumberOneRecorded(cells, names, argc, n, x, y);
      }
    }
  }

  lemma OnlyLength(cells: seq<Cell>, names: Names, n: Numbering, left: seq<string>)
    requires OnlyIndices(cells, names, n, left)
    ensures |n.cells| == |cells|
  {}

  lemma {:induction false} NumberAllOk(cells: seq<Cell>, names: Names, argc: nat, n: Numbering, xs: seq<string>)
    requires NamesOk(cells, names, argc) && NumberingOk(cells, names, argc, n, xs)
    requires forall i, j :: 0 <= i < j < |xs| ==> xs[i] != xs[j]
    requires forall x :: x in xs ==> x in names
    ensures NumberingOk(cells, names, argc, NumberAll(n, names, xs), [])
    decreases |xs|
  {
    hide NamesOk, NumberOne, NumberingOk;
    if xs != [] {
      var x, rest := xs[0], xs[1..];
      assert xs == [x] + rest;
      assert x in xs;
      CellOfName(cells, names, argc, x);
      NumberingLength(cells, names, argc, n, xs);
      forall i | 0 <= i < |rest| ensures rest[i] != x { assert rest[i] == xs[i + 1]; }
      NumberOneOk(cells, names, argc, n, x, rest);
      NumberAllOk(cells, names, argc, NumberOne(n, x, names[x]), rest);
    }
  }

  lemma NumberingLength(cells: seq<Cell>, names: Names, argc: nat, n: Numbering, left: seq<string>)
    requires NamesOk(cells, names, argc) && NumberingOk(cells, names, argc, n, left)
    ensures |n.cells| == |cells|
  {}

  /** The register locals of a scope with `argc` parameters: all apart, the numbers from `argc` on without a gap. */
  ghost predicate Gapless(m: map<string, int>, argc: nat) {
    Injective(m) && (forall x :: x in m ==> -1 <= m[x] && (m[x] == -1 ==> x == "self")) &&
    (forall x, r :: x in m && argc <= r < m[x] ==> Uses(m, r))
  }

  lemma TableNames(st: Tracking, scope: nat, argc: nat)
    requires Inv(st) && scope in st.stack && ArgsApart(st, scope, argc)
    ensures scope in st.tables && NamesOk(st.cells, st.tables[scope], argc)
  {
    hide FinishedOk;
    FinishedIsOff(st);
    var names := st.Names(scope);
    forall x | x in names ensures CellOk(st, scope, x) { assert TableCell(st, scope, x); }
    forall x, y | x in names && y in names && names[x] == names[y] ensures x == y {
      assert Shared(st, scope, x, scope, y);
    }
    forall x | x in names && st.cells[names[x]].kind == Arg ensures ArgIndex(st.cells[names[x]].idx, argc, x) {
      assert ArgAt(st, scope, x).Some?;
    }
    forall x, y | SamePosition(st.cells, names, x, y) ensures x == y {
      assert ArgAt(st, scope, x) == ArgAt(st, scope, y);
    }
  }

  /** What `Leave` makes of the state. */
  function Left(st: Tracking, s: Scope, n: Numbering): Tracking
    requires st.stack != []
  {
    st.(cells := n.cells, stack := st.stack[..|st.stack| - 1], locals := st.locals[s.id := n.locals],
        closed := st.closed[s.id := n.closed])
  }

  lemma NumberedOk(g: Setting, st: Tracking, s: Scope)
    requires Orders(g) && Inv(st) && st.stack != [] && st.Current() == s.id && ArgsApart(st, s.id, |s.args|)
    ensures s.id in st.tables
    ensures NamesOk(st.cells, st.tables[s.id], |s.args|)
    ensures exists n :: Leave(g, st, s) == Left(st, s, n) &&
                        NumberingOk(st.cells, st.tables[s.id], |s.args|, n, [])
  {
    hide Inv, ArgsApart, NamesOk;
    TableNames(st, s.id, |s.args|);
    var names := st.tables[s.id];
    var n0 := Numbering(st.cells, |s.args|, map[], map[]);
    var xs := g.order(names.Keys);
    assert NumberingOk(st.cells, names, |s.args|, n0, xs);
    NumberAllOk(st.cells, names, |s.args|, n0, xs);
    var n := NumberAll(n0, names, xs);
    assert Leave(g, st, s) == Left(st, s, n);
  }

  lemma LeftFinished(st: Tracking, s: Scope, n: Numbering)
    requires Inv(st) && st.stack != [] && st.Current() == s.id && s.id in st.tables
    requires NamesOk(st.cells, st.tables[s.id], |s.args|)
    requires NumberingOk(st.cells, st.tables[s.id], |s.args|, n, [])
    ensures FinishedOk(Left(st, s, n), s.id) && Gapless(n.locals, |s.args|)
  {
    hide FinishedOk, Injective, Within;
    var st' := Left(st, s, n);
    var names := st.tables[s.id];
    forall x | x in names ensures names[x] < |st'.cells| && Numbered(st', s.id, x) { assert Recorded(n, names, x); }
    assert s.id !in st'.stack;
    FinishedFacts(st', s.id);
  }

  lemma FinishedFacts(st: Tracking, scope: nat)
    requires scope in st.closed && scope in st.locals && scope in st.tables && scope !in st.stack
    requires Injective(st.closed[scope]) && Within(st.closed[scope]) && Injective(st.locals[scope])
    requires forall x :: x in st.tables[scope] ==> st.tables[scope][x] < |st.cells| && Numbered(st, scope, x)
    ensures FinishedOk(st, scope)
  {}

  lemma LeftOthers(st: Tracking, s: Scope, n: Numbering, t: nat)
    requires Inv(st) && st.stack != [] && st.Current() == s.id && s.id in st.tables && Finished(st, t)
    requires OnlyIndices(st.cells, st.tables[s.id], n, [])
    ensures t != s.id && FinishedOk(Left(st, s, n), t)
  {
    hide Injective, Within;
    assert FinishedOk(st, t);
    var st' := Left(st, s, n);
    forall x | x in st.tables[t] ensures st.tables[t][x] < |st'.cells| && Numbered(st', t, x) {
      assert Numbered(st, t, x);
      forall y | y in st.tables[s.id] ensures st.tables[s.id][y] != st.tables[t][x] {
        assert !Shared(st, s.id, y, t, x);
      }
    }
    FinishedFacts(st', t);
  }

  lemma LeftCell(st: Tracking, s: Scope, n: Numbering, t: nat, x: string)
    requires Inv(st) && st.stack != [] && st.Current() == s.id && s.id in st.tables && TableCell(st, t, x)
    requires OnlyIndices(st.cells, st.tables[s.id], n, [])
    ensures CellOk(Left(st, s, n), t, x)
  {
    hide FinishedOk;
    assert CellOk(st, t, x);
  }

  lemma LeftInv(st: Tracking, s: Scope, n: Numbering)
    requires Inv(st) && st.stack != [] && st.Current() == s.id && s.id in st.tables
    requires OnlyIndices(st.cells, st.tables[s.id], n, []) && FinishedOk(Left(st, s, n), s.id)
    ensures Inv(Left(st, s, n))
  {
    hide FinishedOk, CellOk, OnlyIndices;
    var st' := Left(st, s, n);
    forall t, x | TableCell(st', t, x) ensures CellOk(st', t, x) {
      assert TableCell(st, t, x);
      LeftCell(st, s, n, t, x);
    }
    forall t, x, u, y | Shared(st', t, x, u, y) ensures t == u && x == y { assert Shared(st, t, x, u, y); }
    forall t | Finished(st', t) ensures FinishedOk(st', t) {
      if t != s.id {
        assert Finished(st, t);
        LeftOthers(st, s, n, t);
      }
    }
  }

  lemma LeftLater(st: Tracking, s: Scope, n: Numbering)
    requires Inv(st) && st.stack != [] && st.Current() == s.id && |n.cells| == |st.cells|
    requires forall c :: 0 <= c < |st.cells| ==> Evolved(st.cells[c], n.cells[c])
    ensures Later(st, Left(st, s, n), {})
  {
    hide FinishedOk, CellOk, Evolved, Inv;
    FinishedIsOff(st);
    InStack(st, 0);
  }

  lemma LeaveOk(g: Setting, st: Tracking, s: Scope)
    requires Orders(g) && Inv(st) && st.stack != [] && st.Current() == s.id && ArgsApart(st, s.id, |s.args|)
    ensures var st' := Leave(g, st, s);
      Inv(st') && Later(st, st', {}) && Finished(st', s.id) && s.id in st'.locals && Gapless(st'.locals[s.id], |s.args|)
  {
    hide Inv, Later, FinishedOk, Leave, CellOk, NamesOk, Evolved, Gapless, OnlyIndices, Recorded, LocalOk;
    NumberedOk(g, st, s);
    var n :| Leave(g, st, s) == Left(st, s, n) && NumberingOk(st.cells, st.tables[s.id], |s.args|, n, []);
    LeftFinished(st, s, n);
    LeftEvolved(st, s, n);
    OnlyLength(st.cells, st.tables[s.id], n, []);
    LeftInv(st, s, n);
    LeftLater(st, s, n);
  }

  lemma LeftEvolved(st: Tracking, s: Scope, n: Numbering)
    requires Inv(st) && s.id in st.tables && NamesOk(st.cells, st.tables[s.id], |s.args|)
    requires NumberingOk(st.cells, st.tables[s.id], |s.args|, n, [])
    ensures forall c :: 0 <= c < |st.cells| ==> Evolved(st.cells[c], n.cells[c])
  {
    hide Inv, Injective, Within, Registers;
    forall c | 0 <= c < |st.cells| ensures Evolved(st.cells[c], n.cells[c]) {
      if n.cells[c] != st.cells[c] {
        var x :| x in st.tables[s.id] && x !in [] && st.tables[s.id][x] == c;
        assert Recorded(n, st.tables[s.id], x);
      }
    }
  }

  // ----- parameters of one name -----

  lemma {:induction false} ParametersKeep(st: Tracking, s: Scope, i: nat, name: string)
    requires i <= |s.args| && name in st.Names(s.id) && st.Names(s.id)[name] < |st.cells|
    ensures var r := EnterArguments(st, s, i);
      name in r.Names(s.id) && r.Names(s.id)[name] == st.Names(s.id)[name] && st.cells <= r.cells
    decreases |s.args| - i
  {
    if i < |s.args| { ParametersKeep(EnterArgument(st, s.id, s.args[i], i), s, i + 1, name); }
  }

  lemma {:induction false} ParametersUpTo(st: Tracking, s: Scope, i: nat, j: nat)
    requires i <= j < |s.args| && s.args[j].name !in st.Names(s.id)
    requires forall k :: i <= k < j ==> s.args[k].name != s.args[j].name
    ensures var r := EnterArguments(st, s, i);
      s.args[j].name in r.Names(s.id) && r.Names(s.id)[s.args[j].name] == |st.cells| + j - i &&
      |st.cells| + j - i < |r.cells| && r.cells[|st.cells| + j - i] == Cell(Arg, j, true, 0, 0)
    decreases |s.args| - i
  {
    var st1 := EnterArgument(st, s.id, s.args[i], i);
    if i < j { ParametersUpTo(st1, s, i + 1, j); } else { ParametersKeep(st1, s, i + 1, s.args[j].name); }
  }

  /** Of parameters with one name the first is found by it; `self` comes after them. */
  lemma FirstParameter(st: Tracking, s: Scope, j: nat)
    requires j < |s.args| && forall k :: 0 <= k < j ==> s.args[k].name != s.args[j].name
    ensures var r := Enter(st, s);
      s.args[j].name in r.Names(s.id) && r.Names(s.id)[s.args[j].name] == |st.cells| + j &&
      |st.cells| + j < |r.cells| && r.cells[|st.cells| + j] == Cell(Arg, j, true, 0, 0)
  {
    ParametersUpTo(st.(stack := st.stack + [s.id], tables := st.tables[s.id := map[]]), s, 0, j);
  }
}
