/**
 Which variable a name means, told from names alone: a table of the names declared so far in each enclosing
 scope, and no cells, registers or slots. Scope analysis places every name at exactly that depth.
 */
module LexicalScoping {
  import opened Ast
  import opened ScopeTracker
  import opened ScopeAnalysis

  /**
   The names declared so far in the enclosing scopes, outermost first, and for every node met so far how many
   scopes further out its variable is; a global is beyond all of them.
   */
  datatype Scan = Scan(known: seq<set<string>>, depths: map<nat, nat>)

  /** How far out the innermost scope is that has declared the name. */
  function Nearest(known: seq<set<string>>, name: string): (d: Option<nat>)
    ensures d.Some? ==> d.value < |known|
  {
    if known == [] then None
    else
      var n := |known| - 1;
      if name in known[n] then Some(0)
      else
        match Nearest(known[..n], name)
        case Some(d) => Some(d + 1)
        case None => None
  }

  function At(sc: Scan, id: nat, d: nat): Scan { sc.(depths := sc.depths[id := d]) }

  /** The innermost scope declares the name. */
  function Declared(sc: Scan, id: nat, name: string): (r: Scan)
    requires sc.known != []
    ensures |r.known| == |sc.known|
  {
    var n := |sc.known| - 1;
    At(sc.(known := sc.known[n := sc.known[n] + {name}]), id, 0)
  }

  /**
   A name read or assigned is the nearest declared one; assigned without being declared it declares itself; an
   operator assignment and the variable of a `rescue` declare it whatever the enclosing scopes have.
   */
  function ScanUse(globals: set<string>, sc: Scan, u: Use): (r: Scan)
    requires sc.known != []
    ensures |r.known| == |sc.known|
  {
    match u
    case NoUse => sc
    case Lookup(id, name) =>
      (match Nearest(sc.known, name)
       case Some(d) => At(sc, id, d)
       case None => if name in globals then At(sc, id, |sc.known|) else sc)
    case Define(id, name) =>
      (match Nearest(sc.known, name)
       case Some(d) => At(sc, id, d)
       case None => Declared(sc, id, name))
    case Rebind(id, name) => Declared(sc, id, name)
  }

  function ScanArguments(sc: Scan, args: seq<Argument>, i: nat): (r: Scan)
    requires sc.known != [] && i <= |args|
    ensures |r.known| == |sc.known|
    decreases |args| - i
  {
    if i == |args| then sc else ScanArguments(Declared(sc, args[i].id, args[i].name), args, i + 1)
  }

  /** Inside a scope, before its body. */
  function Inside(sc: Scan, s: Scope): (r: Scan)
    ensures |r.known| == |sc.known| + 1
  {
    var sc1 := ScanArguments(sc.(known := sc.known + [{}]), s.args, 0);
    if s.self.Some? then Declared(sc1, s.self.value.id, s.self.value.name) else sc1
  }

  /** A tree read from left to right; the variable of a `rescue` comes between the body and the handler. */
  function ScanTree(globals: set<string>, sc: Scan, e: Node): (r: Scan)
    requires sc.known != []
    ensures |r.known| == |sc.known|
    decreases Weight(e), 1
  {
    PartsWeighLess(e);
    if ScopeOf(e).Some? then ScanScope(globals, sc, ScopeOf(e).value)
    else if e.Try? then ScanAll(globals, ScanUse(globals, ScanTree(globals, sc, e.body), UseOf(e)), Parts(e).rest)
    else ScanUse(globals, ScanAll(globals, sc, Parts(e)), UseOf(e))
  }

  function ScanAll(globals: set<string>, sc: Scan, es: Nodes): (r: Scan)
    requires sc.known != []
    ensures |r.known| == |sc.known|
    decreases WeightAll(es), 0
  {
    match es
    case NoNodes => sc
    case More(e, rest) => ScanAll(globals, ScanTree(globals, sc, e), rest)
  }

  function ScanScope(globals: set<string>, sc: Scan, s: Scope): (r: Scan)
    ensures |r.known| == |sc.known|
    decreases Weight(s.body), 2
  {
    var r := ScanTree(globals, Inside(sc, s), s.body);
    r.(known := r.known[..|sc.known|])
  }

  // ----- the same node by node -----

  /** A name that is read: the nearest declared one, else the global; else it names no variable. */
  function Found(globals: set<string>, sc: Scan, id: nat, name: string): (r: Scan)
    requires sc.known != []
    ensures |r.known| == |sc.known|
  {
    match Nearest(sc.known, name)
    case Some(d) => At(sc, id, d)
    case None => if name in globals then At(sc, id, |sc.known|) else sc
  }

  /** A name that is assigned: the nearest declared one, else a new one. */
  function Assigned(sc: Scan, id: nat, name: string): (r: Scan)
    requires sc.known != []
    ensures |r.known| == |sc.known|
  {
    match Nearest(sc.known, name)
    case Some(d) => At(sc, id, d)
    case None => Declared(sc, id, name)
  }

  /**
   A tree read in the order of its text. A value is read before the name it is assigned to; the name of a send without
   a receiver after its arguments; the variable of a `rescue` between the body and the type.
   */
  function ReadTree(globals: set<string>, sc: Scan, e: Node): (r: Scan)
    requires sc.known != []
    ensures |r.known| == |sc.known|
    decreases e
  {
    match e
    case Seq(x, y) => ReadTree(globals, ReadTree(globals, sc, x), y)
    case Self(id) => Found(globals, sc, id, "self")
    case Named(id, name) => Found(globals, sc, id, name)
    case Assign(id, name, v) => Assigned(ReadTree(globals, sc, v), id, name)
    case AssignOp(id, name, _, v) => Declared(ReadTree(globals, sc, v), id, name)
    case Not(v) => ReadTree(globals, sc, v)
    case And(x, y) => ReadTree(globals, ReadTree(globals, sc, x), y)
    case IfCond(c, x, y) =>
      var r := ReadTree(globals, ReadTree(globals, sc, c), x);
      if y.Some? then ReadTree(globals, r, y.value) else r
    case Unless(c, x) => ReadTree(globals, ReadTree(globals, sc, c), x)
    case While(c, x) => ReadTree(globals, ReadTree(globals, sc, c), x)
    case Tuple(args) => ReadAll(globals, sc, args)
    case List(args) => ReadAll(globals, sc, args)
    case Send(id, name, selfLess, recv, args) =>
      var r := ReadAll(globals, ReadTree(globals, sc, recv), args);
      if selfLess then Found(globals, r, id, name) else r
    case Raise(v) => ReadTree(globals, sc, v)
    case Try(id, body, handler, name, ty) =>
      var r := ReadTree(globals, sc, body);
      var r1 := if name.Some? then Declared(r, id, name.value) else r;
      ReadTree(globals, if ty.Some? then ReadTree(globals, r1, ty.value) else r1, handler)
    case Return(v) => ReadTree(globals, sc, v)
    case Lambda(s) => ReadScope(globals, sc, s)
    case Def(_, s) => ReadScope(globals, sc, s)
    case _ => sc
  }

  function ReadAll(globals: set<string>, sc: Scan, es: Nodes): (r: Scan)
    requires sc.known != []
    ensures |r.known| == |sc.known|
    decreases es
  {
    match es
    case NoNodes => sc
    case More(e, rest) => ReadAll(globals, ReadTree(globals, sc, e), rest)
  }

  function ReadScope(globals: set<string>, sc: Scan, s: Scope): (r: Scan)
    ensures |r.known| == |sc.known|
    decreases s
  {
    var r := ReadTree(globals, Inside(sc, s), s.body);
    r.(known := r.known[..|sc.known|])
  }

  /** For every name of a program, how many scopes out its variable is. */
  function Depths(globals: set<string>, top: Scope): map<nat, nat> { ReadScope(globals, Scan([], map[]), top).depths }

  /** The parts and uses that the visitor has in common with the scan are those of the node. */
  lemma {:induction false} SameReading(globals: set<string>, sc: Scan, e: Node)
    requires sc.known != []
    ensures ReadTree(globals, sc, e) == ScanTree(globals, sc, e)
    decreases e, 2
  {
    hide Weight, ScanTree, ReadTree;
    match e
    case Seq(_, _) => SamePair(globals, sc, e);
    case And(_, _) => SamePair(globals, sc, e);
    case Unless(_, _) => SamePair(globals, sc, e);
    case While(_, _) => SamePair(globals, sc, e);
    case IfCond(_, _, _) => SameIf(globals, sc, e);
    case Try(_, _, _, _, _) => SameTry(globals, sc, e);
    case Tuple(_) => SameArguments(globals, sc, e);
    case List(_) => SameArguments(globals, sc, e);
    case Send(_, _, _, _, _) => SameArguments(globals, sc, e);
    case Lambda(_) => SameInner(globals, sc, e);
    case Def(_, _) => SameInner(globals, sc, e);
    case _ => SameSingle(globals, sc, e);
  }

  lemma {:induction false} SamePair(globals: set<string>, sc: Scan, e: Node)
    requires sc.known != [] && (e.Seq? || e.And? || e.Unless? || e.While?)
    ensures ReadTree(globals, sc, e) == ScanTree(globals, sc, e)
    decreases e, 1
  {
    hide Weight;
    PartsWeighLess(e);
    match e
    case Seq(x, y) => SameTwo(globals, sc, e, x, y);
    case And(x, y) => SameTwo(globals, sc, e, x, y);
    case Unless(x, y) => SameTwo(globals, sc, e, x, y);
    case While(x, y) => SameTwo(globals, sc, e, x, y);
  }

  lemma {:induction false} SameSingle(globals: set<string>, sc: Scan, e: Node)
    requires sc.known != [] && ScopeOf(e).None? && !e.Tuple? && !e.List? && !e.Send? && !e.Try? && !e.IfCond?
    requires !e.Seq? && !e.And? && !e.Unless? && !e.While?
    ensures ReadTree(globals, sc, e) == ScanTree(globals, sc, e)
    decreases e, 1
  {
    hide Weight, Declared;
    PartsWeighLess(e);
    match e
    case Assign(_, _, v) => SameOne(globals, sc, e, v);
    case AssignOp(_, _, _, v) => SameOne(globals, sc, e, v);
    case Not(v) => SameOne(globals, sc, e, v);
    case Raise(v) => SameOne(globals, sc, e, v);
    case Return(v) => SameOne(globals, sc, e, v);
    case _ =>
  }

  lemma {:induction false} SameArguments(globals: set<string>, sc: Scan, e: Node)
    requires sc.known != [] && (e.Tuple? || e.List? || e.Send?)
    ensures ReadTree(globals, sc, e) == ScanTree(globals, sc, e)
    decreases e, 1
  {
    hide Weight;
    PartsWeighLess(e);
    if e.Send? {
      SameReading(globals, sc, e.recv);
      SameReadings(globals, ReadTree(globals, sc, e.recv), e.args);
    } else {
      SameReadings(globals, sc, e.args);
    }
  }

  lemma {:induction false} SameInner(globals: set<string>, sc: Scan, e: Node)
    requires sc.known != [] && ScopeOf(e).Some?
    ensures ReadTree(globals, sc, e) == ScanTree(globals, sc, e)
    decreases e, 1
  {
    PartsWeighLess(e);
    SameScope(globals, sc, ScopeOf(e).value);
  }

  lemma {:induction false} SameIf(globals: set<string>, sc: Scan, e: Node)
    requires sc.known != [] && e.IfCond?
    ensures ReadTree(globals, sc, e) == ScanTree(globals, sc, e)
    decreases e, 1
  {
    hide Weight;
    PartsWeighLess(e);
    SameReading(globals, sc, e.cond);
    SameTwo(globals, sc, e, e.cond, e.body);
    if e.ebody.Some? { SameTwo(globals, ReadTree(globals, sc, e.cond), e, e.body, e.ebody.value); }
  }

  lemma {:induction false} SameTry(globals: set<string>, sc: Scan, e: Node)
    requires sc.known != [] && e.Try?
    ensures ReadTree(globals, sc, e) == ScanTree(globals, sc, e)
    decreases e, 1
  {
    hide Weight, Declared;
    PartsWeighLess(e);
    SameReading(globals, sc, e.body);
    var r := ReadTree(globals, sc, e.body);
    var r1 := if e.excName.Some? then Declared(r, e.id, e.excName.value) else r;
    if e.excType.Some? {
      SameTwo(globals, r1, e, e.excType.value, e.handler);
    } else {
      SameOne(globals, r1, e, e.handler);
    }
  }

  lemma {:induction false} SameOne(globals: set<string>, sc: Scan, e: Node, x: Node)
    requires sc.known != [] && x < e
    ensures ReadTree(globals, sc, x) == ScanAll(globals, sc, More(x, NoNodes))
    decreases e, 0
  {
    hide ReadTree, ScanTree, Weight;
    SameReading(globals, sc, x);
  }

  lemma {:induction false} SameTwo(globals: set<string>, sc: Scan, e: Node, x: Node, y: Node)
    requires sc.known != [] && x < e && y < e
    ensures ReadTree(globals, sc, x) == ScanAll(globals, sc, More(x, NoNodes))
    ensures ReadTree(globals, ReadTree(globals, sc, x), y) == ScanAll(globals, sc, More(x, More(y, NoNodes)))
    decreases e, 0
  {
    hide ReadTree, ScanTree, Weight;
    var r := ReadTree(globals, sc, x);
    SameReading(globals, sc, x);
    SameReading(globals, r, y);
    assert ScanAll(globals, r, More(y, NoNodes)) == ScanTree(globals, r, y);
  }

  lemma {:induction false} SameReadings(globals: set<string>, sc: Scan, es: Nodes)
    requires sc.known != []
    ensures ReadAll(globals, sc, es) == ScanAll(globals, sc, es)
    decreases es
  {
    match es
    case NoNodes =>
    case More(e, rest) =>
      SameReading(globals, sc, e);
      SameReadings(globals, ReadTree(globals, sc, e), rest);
  }

  lemma {:induction false} SameScope(globals: set<string>, sc: Scan, s: Scope)
    ensures ReadScope(globals, sc, s) == ScanScope(globals, sc, s)
    decreases s
  {
    SameReading(globals, Inside(sc, s), s.body);
  }

  // ----- scope analysis finds the same -----

  /** The depth the place of a node records. */
  function DepthOf(st: Tracking, id: nat): int
    requires id in st.places
  {
    var c := st.places[id];
    if c < |st.cells| && st.cells[c].kind in {Access, Global} then st.cells[c].depth else 0
  }

  ghost predicate SameNames(known: seq<set<string>>, st: Tracking) {
    |known| == |st.stack| && forall k :: 0 <= k < |known| ==> known[k] == st.Names(st.stack[k]).Keys
  }

  ghost predicate SameDepths(depths: map<nat, nat>, st: Tracking) {
    depths.Keys == st.places.Keys &&
    forall id :: id in depths ==> st.places[id] < |st.cells| && depths[id] == DepthOf(st, id)
  }

  ghost predicate Mirrors(sc: Scan, st: Tracking) { SameNames(sc.known, st) && SameDepths(sc.depths, st) }

  lemma {:induction false} NearestEncloses(known: seq<set<string>>, st: Tracking, name: string, d: nat)
    requires SameNames(known, st) && d <= |known|
    ensures Enclosing(st, name, d) ==
      match Nearest(known[..|known| - d], name)
      case Some(k) => Some(d + k)
      case None => None
    decreases |known| - d
  {
    if d < |known| {
      var n := |known| - d;
      assert known[..n][..n - 1] == known[..|known| - (d + 1)];
      assert known[..n][n - 1] == st.Names(st.Out(d)).Keys;
      NearestEncloses(known, st, name, d + 1);
    }
  }

  /** What the name means at this point, to both. */
  lemma NearestNow(known: seq<set<string>>, st: Tracking, name: string)
    requires SameNames(known, st) && st.stack != []
    ensures known != [] && (Nearest(known, name) == Some(0) <==> name in st.Names(st.Current()))
    ensures name !in st.Names(st.Current()) ==> Nearest(known, name) == Enclosing(st, name, 1)
  {
    var n := |known| - 1;
    NearestEncloses(known, st, name, 1);
    assert known[n] == st.Names(st.stack[n]).Keys;
  }

  /** Only node `id` has a new place, of depth `d`. */
  ghost predicate Replaced(st: Tracking, st': Tracking, id: nat, d: int) {
    st'.places.Keys == st.places.Keys + {id} && st'.places[id] < |st'.cells| && DepthOf(st', id) == d &&
    forall j :: j in st.places && j != id && st.places[j] < |st.cells| ==>
      st'.places[j] < |st'.cells| && DepthOf(st', j) == DepthOf(st, j)
  }

  lemma ReplacedDepths(depths: map<nat, nat>, st: Tracking, st': Tracking, id: nat, d: nat)
    requires SameDepths(depths, st) && Replaced(st, st', id, d)
    ensures SameDepths(depths[id := d], st')
  {
    hide DepthOf;
  }

  lemma ReplacedTwice(a: Tracking, b: Tracking, c: Tracking, id: nat, d: int, d': int)
    requires Replaced(a, b, id, d) && Replaced(b, c, id, d')
    ensures Replaced(a, c, id, d')
  {
    hide DepthOf;
  }

  lemma PlaceReplaces(st: Tracking, id: nat, c: Cell)
    ensures Replaced(st, Place(st, id, c), id, if c.kind in {Access, Global} then c.depth else 0)
  {}

  lemma FoundReplaces(st: Tracking, id: nat, scope: nat, name: string)
    requires Inv(st) && TableCell(st, scope, name)
    ensures Replaced(st, st.(places := st.places[id := st.tables[scope][name]]), id, 0)
  {
    hide FinishedOk;
    assert CellOk(st, scope, name);
  }

  lemma ReachReplaces(st: Tracking, id: nat, name: string, d: nat, depth: nat)
    requires Inv(st) && 1 <= d < |st.stack| && name in st.Names(st.Out(d))
    ensures Replaced(st, Reach(st, id, name, d, depth), id, depth)
  {
    hide FinishedOk;
    InStack(st, d);
    assert TableCell(st, st.Out(d), name) && CellOk(st, st.Out(d), name);
  }

  lemma {:induction false} ReachAllKeeps(g: Setting, st: Tracking, id: nat, name: string, d: nat)
    requires Inv(st) && 1 <= d
    ensures var st' := ReachAll(st, id, name, d);
      st' == st || exists k: nat :: Replaced(st, st', id, k)
    decreases |st.stack| - d
  {
    hide Inv, Replaced, Reach;
    if d < |st.stack| {
      if name in st.Names(st.Out(d)) {
        var st1 := Reach(st, id, name, d, d - 1);
        ReachReplaces(st, id, name, d, d - 1);
        ReachOk(g, st, id, name, d, d - 1);
        ReachAllKeeps(g, st1, id, name, d + 1);
        var st2 := ReachAll(st1, id, name, d + 1);
        if st2 != st1 {
          var k: nat :| Replaced(st1, st2, id, k);
          ReplacedTwice(st, st1, st2, id, d - 1, k);
        }
      } else {
        ReachAllKeeps(g, st, id, name, d + 1);
      }
    }
  }

  /** A name enters the table of the innermost scope. */
  lemma NamedToo(known: seq<set<string>>, st: Tracking, st': Tracking, name: string)
    requires SameNames(known, st) && st.stack != [] && st'.stack == st.stack
    requires forall i :: 0 <= i < |st.stack| - 1 ==> st.stack[i] != st.Current()
    requires st'.Names(st.Current()).Keys == st.Names(st.Current()).Keys + {name}
    requires forall s :: s != st.Current() ==> st'.Names(s) == st.Names(s)
    ensures SameNames(known[|known| - 1 := known[|known| - 1] + {name}], st')
  {}

  ghost predicate StackApart(st: Tracking) {
    forall i, j :: 0 <= i < j < |st.stack| ==> st.stack[i] != st.stack[j]
  }

  lemma DeclareMirrors(sc: Scan, st: Tracking, id: nat, name: string)
    requires StackApart(st) && st.stack != [] && Mirrors(sc, st)
    ensures sc.known != [] && Mirrors(Declared(sc, id, name), Declare(st, id, name))
  {
    hide SameDepths, SameNames;
    assert |sc.known| == |st.stack| by { NamesMany(sc.known, st); }
    var st1 := Place(st, id, Cell(Register, 0, false, 0, 0));
    PlaceReplaces(st, id, Cell(Register, 0, false, 0, 0));
    var st2 := Declare(st, id, name);
    assert Replaced(st, st2, id, 0) by { SamePlaces(st, st1, st2, id, 0); }
    ReplacedDepths(sc.depths, st, st2, id, 0);
    NamedToo(sc.known, st, st2, name);
  }

  lemma NamesMany(known: seq<set<string>>, st: Tracking)
    requires SameNames(known, st)
    ensures |known| == |st.stack|
  {}

  lemma SamePlaces(st: Tracking, st1: Tracking, st2: Tracking, id: nat, d: int)
    requires Replaced(st, st1, id, d) && st2.cells == st1.cells && st2.places == st1.places
    ensures Replaced(st, st2, id, d)
  {}

  lemma SameTables(known: seq<set<string>>, st: Tracking, st': Tracking)
    requires SameNames(known, st) && st'.stack == st.stack && st'.tables == st.tables
    ensures SameNames(known, st')
  {}

  lemma InvApart(st: Tracking)
    requires Inv(st)
    ensures StackApart(st)
  {}

  /** A node's own name gets the same depth. */
  lemma UseMirrors(g: Setting, sc: Scan, st: Tracking, u: Use)
    requires Inv(st) && st.stack != [] && Mirrors(sc, st)
    ensures sc.known != [] && Mirrors(ScanUse(g.globals.Keys, sc, u), Apply(g, st, u))
  {
    hide SameDepths, SameNames, Inv, Declared, Declare, Replaced, Reach;
    NamesMany(sc.known, st);
    InvApart(st);
    if !u.NoUse? {
      var id, name := u.id, u.name;
      NearestNow(sc.known, st, name);
      EnclosingHas(st, name, 1);
      if u.Rebind? {
        RebindMirrors(g, sc, st, id, name);
      } else if name in st.Names(st.Current()) {
        FoundMirrors(sc, st, id, name);
      } else if Enclosing(st, name, 1).Some? {
        var d := Enclosing(st, name, 1).value;
        ReachReplaces(st, id, name, d, d);
        ReplacedDepths(sc.depths, st, Reach(st, id, name, d, d), id, d);
        ReachOk(g, st, id, name, d, d);
        SameTables(sc.known, st, Reach(st, id, name, d, d));
      } else if u.Define? {
        DeclareMirrors(sc, st, id, name);
      } else if name in g.globals {
        var c := Cell(Global, g.globals[name], true, 0, |st.stack|);
        PlaceReplaces(st, id, c);
        ReplacedDepths(sc.depths, st, Place(st, id, c), id, |st.stack|);
        SameTables(sc.known, st, Place(st, id, c));
      }
    }
  }

  lemma FoundMirrors(sc: Scan, st: Tracking, id: nat, name: string)
    requires Inv(st) && st.stack != [] && Mirrors(sc, st) && name in st.Names(st.Current())
    ensures Mirrors(At(sc, id, 0), st.(places := st.places[id := st.Names(st.Current())[name]]))
  {
    hide SameDepths, SameNames, Inv, Replaced;
    InStack(st, 0);
    var st' := st.(places := st.places[id := st.Names(st.Current())[name]]);
    FoundReplaces(st, id, st.Current(), name);
    ReplacedDepths(sc.depths, st, st', id, 0);
    SameTables(sc.known, st, st');
  }

  lemma RebindMirrors(g: Setting, sc: Scan, st: Tracking, id: nat, name: string)
    requires Inv(st) && st.stack != [] && Mirrors(sc, st)
    ensures sc.known != [] && Mirrors(Declared(sc, id, name), TrackRebind(st, id, name))
  {
    hide SameDepths, SameNames, Inv, Declare, Replaced;
    NamesMany(sc.known, st);
    InvApart(st);
    if name in st.Names(st.Current()) {
      FoundMirrors(sc, st, id, name);
      DeclaredAgain(sc, st, id, name);
    } else {
      ReachAllOk(g, st, id, name, 1);
      var st1 := ReachAll(st, id, name, 1);
      ReachAllKeeps(g, st, id, name, 1);
      SameTables(sc.known, st, st1);
      if st1 == st {
        DeclareMirrors(sc, st, id, name);
      } else {
        var k: nat :| Replaced(st, st1, id, k);
        ReplacedDepths(sc.depths, st, st1, id, k);
        DeclareMirrors(At(sc, id, k), st1, id, name);
        assert sc.depths[id := k][id := 0] == sc.depths[id := 0];
      }
    }
  }

  lemma DeclaredAgain(sc: Scan, st: Tracking, id: nat, name: string)
    requires SameNames(sc.known, st) && st.stack != [] && name in st.Names(st.Current())
    ensures sc.known != [] && Declared(sc, id, name) == At(sc, id, 0)
  {
    var n := |sc.known| - 1;
    assert sc.known[n] == st.Names(st.stack[n]).Keys;
    assert sc.known[n] + {name} == sc.known[n];
    assert sc.known[n := sc.known[n]] == sc.known;
  }

  // ----- scopes -----

  lemma ArgumentMirrors(sc: Scan, st: Tracking, a: Argument, position: int)
    requires StackApart(st) && st.stack != [] && Mirrors(sc, st)
    ensures sc.known != []
    ensures var st' := EnterArgument(st, st.Current(), a, position);
      Mirrors(Declared(sc, a.id, a.name), st') && st'.stack == st.stack
  {
    hide SameDepths, SameNames;
    NamesMany(sc.known, st);
    var c := Cell(Arg, position, true, 0, 0);
    var st1, st2 := Place(st, a.id, c), EnterArgument(st, st.Current(), a, position);
    PlaceReplaces(st, a.id, c);
    assert Replaced(st, st2, a.id, 0) by { SamePlaces(st, st1, st2, a.id, 0); }
    ReplacedDepths(sc.depths, st, st2, a.id, 0);
    NamedToo(sc.known, st, st2, a.name);
  }

  lemma {:induction false} ArgumentsMirror(sc: Scan, st: Tracking, s: Scope, i: nat)
    requires StackApart(st) && st.stack != [] && st.Current() == s.id && Mirrors(sc, st) && i <= |s.args|
    ensures sc.known != [] && Mirrors(ScanArguments(sc, s.args, i), EnterArguments(st, s, i))
    decreases |s.args| - i
  {
    hide SameDepths, SameNames, EnterArgument, Declared;
    NamesMany(sc.known, st);
    if i < |s.args| {
      ArgumentMirrors(sc, st, s.args[i], i);
      ArgumentsMirror(Declared(sc, s.args[i].id, s.args[i].name), EnterArgument(st, s.id, s.args[i], i), s, i + 1);
    }
  }

  lemma EnterMirrors(sc: Scan, st: Tracking, s: Scope)
    requires StackApart(st) && s.id !in st.stack && Mirrors(sc, st)
    ensures Mirrors(Inside(sc, s), Enter(st, s))
  {
    hide EnterArguments, ScanArguments, EnterArgument, Declared;
    var sc1 := sc.(known := sc.known + [{}]);
    var st1 := st.(stack := st.stack + [s.id], tables := st.tables[s.id := map[]]);
    assert Mirrors(sc1, st1);
    ArgumentsMirror(sc1, st1, s, 0);
    if s.self.Some? {
      ArgumentMirrors(ScanArguments(sc1, s.args, 0), EnterArguments(st1, s, 0), s.self.value, -1);
    }
  }

  lemma {:induction false} KindsStay(n: Numbering, names: Names, xs: seq<string>, c: nat)
    requires c < |n.cells|
    ensures var n' := NumberAll(n, names, xs);
      n'.cells[c].kind == n.cells[c].kind && n'.cells[c].depth == n.cells[c].depth
    decreases |xs|
  {
    if xs != [] {
      var x := xs[0];
      KindsStay(if x in names && names[x] < |n.cells| then NumberOne(n, x, names[x]) else n, names, xs[1..], c);
    }
  }

  lemma LeaveMirrors(g: Setting, sc: Scan, st: Tracking, s: Scope)
    requires st.stack != [] && Mirrors(sc, st)
    ensures sc.known != [] && Mirrors(sc.(known := sc.known[..|sc.known| - 1]), Leave(g, st, s))
  {
    var names := st.Names(s.id);
    var n := Numbering(st.cells, |s.args|, map[], map[]);
    var st' := Leave(g, st, s);
    forall id | id in st'.places ensures st'.places[id] < |st'.cells| && DepthOf(st', id) == DepthOf(st, id) {
      KindsStay(n, names, g.order(names.Keys), st.places[id]);
    }
  }

  // ----- trees -----

  lemma {:induction false} TrackMirrors(g: Setting, sc: Scan, st: Tracking, e: Node)
    requires Orders(g) && Inv(st) && KnowsSelf(st, st.stack) && Unique(e) && Fresh(st, IdsIn(e), ScopesIn(e))
    requires Mirrors(sc, st)
    ensures sc.known != [] && st.stack != [] && Mirrors(ScanTree(g.globals.Keys, sc, e), Track(g, st, e))
    decreases Weight(e), 1
  {
    hide Orders, Inv, Fresh, Visited, Later, KnowsSelf, Unique, IdsIn, ScopesIn, Apply, UseOf, Parts, ScopeOf,
         SameNames, SameDepths, ScanUse;
    PartsWeighLess(e);
    KnowsSelfStack(st);
    NamesMany(sc.known, st);
    if ScopeOf(e).Some? {
      ScopeUnique(st, e);
      TrackScopeMirrors(g, sc, st, ScopeOf(e).value);
    } else if e.Try? {
      TryMirrors(g, sc, st, e);
    } else {
      PartsUnique(e);
      FreshParts(st, e);
      var ps := Parts(e);
      TrackAllOk(g, st, ps);
      KnownSelf(st, TrackAll(g, st, ps), IdsOfAll(ps), ScopesOfAll(ps));
      TrackAllMirrors(g, sc, st, ps);
      UseMirrors(g, ScanAll(g.globals.Keys, sc, ps), TrackAll(g, st, ps), UseOf(e));
    }
  }

  lemma ScopeUnique(st: Tracking, e: Node)
    requires ScopeOf(e).Some? && Unique(e) && Fresh(st, IdsIn(e), ScopesIn(e))
    ensures var s := ScopeOf(e).value;
      UniqueScope(s) && Fresh(st, ArgumentIds(s) + IdsIn(s.body), {s.id} + ScopesIn(s.body))
  {
    hide ScopeOf;
  }

  lemma PartsUnique(e: Node)
    requires ScopeOf(e).None? && Unique(e)
    ensures UniqueAll(Parts(e))
  {
    hide ScopeOf, Parts;
  }

  lemma {:induction false} TryMirrors(g: Setting, sc: Scan, st: Tracking, e: Node)
    requires Orders(g) && Inv(st) && KnowsSelf(st, st.stack) && Unique(e) && Fresh(st, IdsIn(e), ScopesIn(e))
    requires e.Try? && Mirrors(sc, st)
    ensures sc.known != [] && st.stack != [] && Mirrors(ScanTree(g.globals.Keys, sc, e), Track(g, st, e))
    decreases Weight(e), 0
  {
    hide Orders, Inv, Fresh, Visited, Later, KnowsSelf, Unique, IdsIn, ScopesIn, Apply, UseOf, Parts, ScopeOf,
         SameNames, SameDepths, ScanUse;
    PartsWeighLess(e);
    TryParts(e);
    TryFacts(e);
    FreshParts(st, e);
    KnowsSelfStack(st);
    NamesMany(sc.known, st);
    var ps, u := Parts(e), UseOf(e);
    FreshSplit(st, ps);
    var body, rest := ps.head, ps.rest;
    var st1 := Track(g, st, body);
    var st2 := Apply(g, st1, u);
    var sc1 := ScanTree(g.globals.Keys, sc, body);
    TrackOk(g, st, body);
    TrackMirrors(g, sc, st, body);
    KnownSelf(st, st1, IdsIn(body), ScopesIn(body));
    FreshLater(st, st1, IdsIn(body), ScopesIn(body), IdOf(u), {});
    FreshLater(st, st1, IdsIn(body), ScopesIn(body), IdsOfAll(rest), ScopesOfAll(rest));
    ApplyVisits(g, st1, u, {});
    UseMirrors(g, sc1, st1, u);
    KnownSelf(st1, st2, IdOf(u), {});
    FreshLater(st1, st2, IdOf(u), {}, IdsOfAll(rest), ScopesOfAll(rest));
    TrackAllMirrors(g, ScanUse(g.globals.Keys, sc1, u), st2, rest);
  }

  lemma {:induction false} TrackAllMirrors(g: Setting, sc: Scan, st: Tracking, es: Nodes)
    requires Orders(g) && Inv(st) && KnowsSelf(st, st.stack) && UniqueAll(es) &&
             Fresh(st, IdsOfAll(es), ScopesOfAll(es))
    requires Mirrors(sc, st)
    ensures sc.known != [] && st.stack != [] && Mirrors(ScanAll(g.globals.Keys, sc, es), TrackAll(g, st, es))
    decreases WeightAll(es), 0
  {
    hide Orders, Inv, Fresh, Visited, Later, KnowsSelf, Unique, IdsIn, ScopesIn, SameNames, SameDepths, Track, ScanTree;
    KnowsSelfStack(st);
    NamesMany(sc.known, st);
    match es
    case NoNodes =>
    case More(e, rest) =>
      var st1 := Track(g, st, e);
      FreshSplit(st, es);
      TrackOk(g, st, e);
      TrackMirrors(g, sc, st, e);
      KnownSelf(st, st1, IdsIn(e), ScopesIn(e));
      FreshLater(st, st1, IdsIn(e), ScopesIn(e), IdsOfAll(rest), ScopesOfAll(rest));
      TrackAllMirrors(g, ScanTree(g.globals.Keys, sc, e), st1, rest);
  }

  lemma {:induction false} TrackScopeMirrors(g: Setting, sc: Scan, st: Tracking, s: Scope)
    requires Orders(g) && Inv(st) && UniqueScope(s) && Mirrors(sc, st)
    requires KnowsSelf(st, st.stack) || (st.stack == [] && s.self.Some? && s.self.value.name == "self")
    requires Fresh(st, ArgumentIds(s) + IdsIn(s.body), {s.id} + ScopesIn(s.body))
    ensures Mirrors(ScanScope(g.globals.Keys, sc, s), TrackScope(g, st, s))
    decreases Weight(s.body), 2
  {
    hide Orders, Inv, Later, KnowsSelf, Unique, IdsIn, ScopesIn, ParametersResolved, Track, ScanTree, Enter, Leave,
         ArgsApart, ArgumentIds, DistinctArgs, SameNames, SameDepths, Inside;
    var st1, sc1 := Enter(st, s), Inside(sc, s);
    assert s.id in {s.id} + ScopesIn(s.body);
    InvApart(st);
    NotOnStack(st, s.id);
    EnterMirrors(sc, st, s);
    EnterOk(g, st, s);
    EnteredKnowsSelf(g, st, s);
    assert Fresh(st1, IdsIn(s.body), ScopesIn(s.body)) by {
      EnteredFresh(st, st1, ArgumentIds(s), s.id, IdsIn(s.body), ScopesIn(s.body));
    }
    TrackMirrors(g, sc1, st1, s.body);
    NamesMany(sc.known, st);
    LeaveMirrors(g, ScanTree(g.globals.Keys, sc1, s.body), Track(g, st1, s.body), s);
  }

  lemma NotOnStack(st: Tracking, scope: nat)
    requires Inv(st) && scope !in st.tables
    ensures scope !in st.stack
  {}

  /**
   Scope analysis is lexical scoping: every name of a program gets a place exactly when reading the names alone
   finds its variable, and the depth recorded there is the number of scopes between them.
   */
  lemma AnalysisIsLexical(g: Setting, top: Scope)
    requires Orders(g) && WellFormed(top)
    ensures SameDepths(Depths(g.globals.Keys, top), Analyse(g, top))
  {
    hide Orders, Inv, TrackScope, ScanScope, ReadScope, UniqueScope, SameDepths;
    assert Inv(Nothing) by { NothingOk(); }
    assert Mirrors(Scan([], map[]), Nothing) by { NothingMirrors(); }
    TrackScopeMirrors(g, Scan([], map[]), Nothing, top);
    SameScope(g.globals.Keys, Scan([], map[]), top);
  }

  lemma NothingMirrors()
    ensures Mirrors(Scan([], map[]), Nothing)
  {}
}
