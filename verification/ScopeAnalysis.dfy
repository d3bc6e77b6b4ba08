/** Scope analysis of whole trees: every name is resolved, wherever the walk through the tree is. */
module ScopeAnalysis {
  import opened Ast
  import opened ScopeTracker

  // ----- whole trees -----

  function ArgumentIds(s: Scope): set<nat> {
    ArgIds(s, |s.args|) + if s.self.Some? then {s.self.value.id} else {}
  }

  /** All node ids of a tree, those of nested scopes included. */
  function IdsIn(e: Node): set<nat>
    decreases Weight(e), 1
  {
    PartsWeighLess(e);
    match ScopeOf(e)
    case Some(s) => ArgumentIds(s) + IdsIn(s.body)
    case None => IdOf(UseOf(e)) + IdsOfAll(Parts(e))
  }

  function IdsOfAll(es: Nodes): set<nat>
    decreases WeightAll(es), 0
  {
    match es
    case NoNodes => {}
    case More(e, rest) => IdsIn(e) + IdsOfAll(rest)
  }

  function ScopesIn(e: Node): set<nat>
    decreases Weight(e), 1
  {
    PartsWeighLess(e);
    match ScopeOf(e)
    case Some(s) => {s.id} + ScopesIn(s.body)
    case None => ScopesOfAll(Parts(e))
  }

  function ScopesOfAll(es: Nodes): set<nat>
    decreases WeightAll(es), 0
  {
    match es
    case NoNodes => {}
    case More(e, rest) => ScopesIn(e) + ScopesOfAll(rest)
  }

  /** Every node and scope of the tree is an object of its own; parameters of a scope have distinct names. */
  ghost predicate Unique(e: Node)
    decreases Weight(e), 1
  {
    PartsWeighLess(e);
    match ScopeOf(e)
    case Some(s) => UniqueScope(s)
    case None => IdOf(UseOf(e)) !! IdsOfAll(Parts(e)) && UniqueAll(Parts(e))
  }

  ghost predicate UniqueScope(s: Scope)
    decreases Weight(s.body), 2
  {
    DistinctArgs(s) && ArgumentIds(s) !! IdsIn(s.body) && s.id !in ScopesIn(s.body) && Unique(s.body)
  }

  ghost predicate UniqueAll(es: Nodes)
    decreases WeightAll(es), 0
  {
    match es
    case NoNodes => true
    case More(e, rest) =>
      IdsIn(e) !! IdsOfAll(rest) && ScopesIn(e) !! ScopesOfAll(rest) && Unique(e) && UniqueAll(rest)
  }

  /** Every name used in the tree is resolved as seen from inside the scopes `stack`; `self` always is. */
  ghost predicate TreeResolved(g: Setting, st: Tracking, e: Node, stack: seq<nat>)
    decreases Weight(e), 1
  {
    PartsWeighLess(e);
    match ScopeOf(e)
    case Some(s) => ScopeResolved(g, st, s, stack + [s.id])
    case None =>
      Answered(g, st, UseOf(e), stack) && (e.Self? ==> Resolved(g, st, e.id, "self", stack)) &&
      AllResolved(g, st, Parts(e), stack)
  }

  ghost predicate AllResolved(g: Setting, st: Tracking, es: Nodes, stack: seq<nat>)
    decreases WeightAll(es), 0
  {
    match es
    case NoNodes => true
    case More(e, rest) => TreeResolved(g, st, e, stack) && AllResolved(g, st, rest, stack)
  }

  ghost predicate ParametersResolved(g: Setting, st: Tracking, s: Scope, stack: seq<nat>) {
    ArgsResolved(g, st, s, |s.args|, stack) &&
    (s.self.Some? ==>
       Resolved(g, st, s.self.value.id, s.self.value.name, stack) && Stands(st, s.id, s.self.value, -1))
  }

  ghost predicate ScopeResolved(g: Setting, st: Tracking, s: Scope, stack: seq<nat>)
    decreases Weight(s.body), 2
  {
    Finished(st, s.id) && s.id in st.locals && Gapless(st.locals[s.id], |s.args|) &&
    ParametersResolved(g, st, s, stack) && TreeResolved(g, st, s.body, stack)
  }

  lemma AnsweredLater(g: Setting, st: Tracking, st': Tracking, ids: set<nat>, u: Use, stack: seq<nat>)
    requires Later(st, st', ids) && IdOf(u) !! ids && Answered(g, st, u, stack)
    ensures Answered(g, st', u, stack)
  {
    hide Resolved;
    if !u.NoUse? {
      assert u.id in IdOf(u);
      if Resolved(g, st, u.id, u.name, stack) { ResolvedLater(g, st, st', ids, u.id, u.name, stack); }
    }
  }

  lemma ParametersLater(g: Setting, st: Tracking, st': Tracking, ids: set<nat>, s: Scope, stack: seq<nat>)
    requires Later(st, st', ids) && ArgumentIds(s) !! ids && ParametersResolved(g, st, s, stack)
    ensures ParametersResolved(g, st', s, stack)
  {
    hide Resolved, Later, Stands;
    forall i | 0 <= i < |s.args|
      ensures Resolved(g, st', s.args[i].id, s.args[i].name, stack) && Stands(st', s.id, s.args[i], i)
    {
      assert s.args[i].id in ArgumentIds(s);
      ResolvedLater(g, st, st', ids, s.args[i].id, s.args[i].name, stack);
      StandsLater(st, st', ids, s.id, s.args[i], i);
    }
    if s.self.Some? {
      assert s.self.value.id in ArgumentIds(s);
      ResolvedLater(g, st, st', ids, s.self.value.id, s.self.value.name, stack);
      StandsLater(st, st', ids, s.id, s.self.value, -1);
    }
  }

  lemma FinishedLater(st: Tracking, st': Tracking, ids: set<nat>, scope: nat)
    requires Later(st, st', ids) && Finished(st, scope)
    ensures Finished(st', scope) && scope in st.locals && scope in st'.locals && st'.locals[scope] == st.locals[scope]
  {}

  lemma {:induction false} TreeLater(g: Setting, st: Tracking, st': Tracking, ids: set<nat>, e: Node, stack: seq<nat>)
    requires Later(st, st', ids) && IdsIn(e) !! ids && TreeResolved(g, st, e, stack)
    ensures TreeResolved(g, st', e, stack)
    decreases Weight(e), 1
  {
    hide Later, Resolved, Answered, Gapless, ParametersResolved, UseOf, Parts;
    PartsWeighLess(e);
    match ScopeOf(e)
    case Some(s) =>
      FinishedLater(st, st', ids, s.id);
      ParametersLater(g, st, st', ids, s, stack + [s.id]);
      TreeLater(g, st, st', ids, s.body, stack + [s.id]);
    case None =>
      AnsweredLater(g, st, st', ids, UseOf(e), stack);
      if e.Self? {
        assert e.id in IdOf(UseOf(e)) by { SelfId(e); }
        ResolvedLater(g, st, st', ids, e.id, "self", stack);
      }
      AllLater(g, st, st', ids, Parts(e), stack);
  }

  lemma SelfId(e: Node)
    requires e.Self?
    ensures e.id in IdOf(UseOf(e))
  {}

  lemma {:induction false} AllLater(g: Setting, st: Tracking, st': Tracking, ids: set<nat>, es: Nodes, stack: seq<nat>)
    requires Later(st, st', ids) && IdsOfAll(es) !! ids && AllResolved(g, st, es, stack)
    ensures AllResolved(g, st', es, stack)
    decreases WeightAll(es), 0
  {
    hide Later, TreeResolved;
    match es
    case NoNodes =>
    case More(e, rest) =>
      TreeLater(g, st, st', ids, e, stack);
      AllLater(g, st, st', ids, rest, stack);
  }

  // ----- the visit -----

  /** The outermost scope knows `self`. */
  ghost predicate KnowsSelf(st: Tracking, stack: seq<nat>) { stack != [] && TableCell(st, stack[0], "self") }

  /** `st'` is what a visit of something with those node and scope ids may make of `st`. */
  ghost predicate Visited(st: Tracking, st': Tracking, ids: set<nat>, scopes: set<nat>) {
    Inv(st') && Later(st, st', ids) && st'.stack == st.stack && st'.tables.Keys <= st.tables.Keys + scopes
  }

  /** The visit has not met these ids. */
  ghost predicate Fresh(st: Tracking, ids: set<nat>, scopes: set<nat>) {
    ids !! st.places.Keys && scopes !! st.tables.Keys
  }

  lemma FreshLater(st: Tracking, st': Tracking, ids: set<nat>, scopes: set<nat>, ids': set<nat>, scopes': set<nat>)
    requires Visited(st, st', ids, scopes) && Fresh(st, ids', scopes') && ids !! ids' && scopes !! scopes'
    ensures Fresh(st', ids', scopes')
  {}

  lemma VisitedTwice(a: Tracking, b: Tracking, c: Tracking, ids: set<nat>, scopes: set<nat>, ids': set<nat>,
                     scopes': set<nat>)
    requires Visited(a, b, ids, scopes) && Visited(b, c, ids', scopes')
    ensures Visited(a, c, ids + ids', scopes + scopes')
  {
    hide Inv, Later;
    LaterTwice(a, b, c, ids, ids');
  }

  lemma KnowsSelfLater(st: Tracking, st': Tracking, ids: set<nat>, stack: seq<nat>)
    requires Later(st, st', ids) && KnowsSelf(st, stack)
    ensures KnowsSelf(st', stack)
  {}

  lemma {:induction false} EnclosingFinds(st: Tracking, name: string, d: nat, k: nat)
    requires d <= k < |st.stack| && name in st.Names(st.Out(k))
    ensures Enclosing(st, name, d).Some?
    decreases k - d
  {
    if name !in st.Names(st.Out(d)) { EnclosingFinds(st, name, d + 1, k); }
  }

  lemma SelfFound(g: Setting, st: Tracking, id: nat)
    requires Inv(st) && KnowsSelf(st, st.stack) && id !in st.places
    ensures Resolved(g, TrackLookup(g, st, id, "self"), id, "self", st.stack)
  {
    hide Inv, Later, Resolved, Reach, Enclosing;
    if "self" in st.Names(st.Current()) {
      FoundOk(g, st, id, "self");
    } else {
      assert st.Out(|st.stack| - 1) == st.stack[0];
      EnclosingFinds(st, "self", 1, |st.stack| - 1);
      EnclosingHas(st, "self", 1);
      ReachOk(g, st, id, "self", Enclosing(st, "self", 1).value, Enclosing(st, "self", 1).value);
    }
  }

  lemma ApplyVisits(g: Setting, st: Tracking, u: Use, scopes: set<nat>)
    requires Inv(st) && st.stack != [] && Fresh(st, IdOf(u), scopes)
    ensures var st' := Apply(g, st, u);
      Visited(st, st', IdOf(u), {}) && Answered(g, st', u, st.stack)
  {
    hide Inv, Later, Apply, Answered;
    ApplyOk(g, st, u);
    ApplyTables(g, st, u);
  }

  /** Using a name only ever adds to the tables of the enclosing scopes. */
  lemma ApplyTables(g: Setting, st: Tracking, u: Use)
    requires Inv(st) && st.stack != []
    ensures Apply(g, st, u).tables.Keys <= st.tables.Keys
  {
    hide FinishedOk, CellOk;
    InStack(st, 0);
    if !u.NoUse? {
      EnclosingHas(st, u.name, 1);
      ReachAllTables(st, u.id, u.name, 1);
    }
  }

  lemma {:induction false} ReachAllTables(st: Tracking, id: nat, name: string, d: nat)
    requires 1 <= d
    ensures ReachAll(st, id, name, d).tables == st.tables && ReachAll(st, id, name, d).stack == st.stack
    decreases |st.stack| - d
  {
    if d < |st.stack| {
      ReachAllTables(if name in st.Names(st.Out(d)) then Reach(st, id, name, d, d - 1) else st, id, name, d + 1);
    }
  }

  // ----- entering a scope -----

  function Opened(st: Tracking, scope: nat): Tracking {
    st.(stack := st.stack + [scope], tables := st.tables[scope := map[]])
  }

  lemma OpenedInv(st: Tracking, scope: nat)
    requires Inv(st) && scope !in st.tables
    ensures Inv(Opened(st, scope))
  {
    hide FinishedOk;
    var st' := Opened(st, scope);
    FinishedIsOff(st);
    forall t, x | TableCell(st', t, x) ensures CellOk(st', t, x) { assert TableCell(st, t, x) && CellOk(st, t, x); }
    forall t, x, u, y | Shared(st', t, x, u, y) ensures t == u && x == y { assert Shared(st, t, x, u, y); }
    forall t | Finished(st', t) ensures FinishedOk(st', t) {
      assert Finished(st, t) && FinishedOk(st, t);
      StillFinished(st, st', t);
    }
  }

  lemma EnterStarts(st: Tracking, scope: nat)
    requires Inv(st) && scope !in st.tables
    ensures Entering(st, Opened(st, scope), scope, 0, false, {})
  {
    hide FinishedOk, CellOk, Inv;
    FinishedIsOff(st);
    OpenedInv(st, scope);
    assert scope in (st.stack + [scope]);
  }

  lemma StillFinished(st: Tracking, st': Tracking, t: nat)
    requires Finished(st, t) && FinishedOk(st, t) && st'.cells == st.cells && st'.locals == st.locals
    requires st'.closed == st.closed && t in st'.tables && st'.tables[t] == st.tables[t] && t !in st'.stack
    ensures FinishedOk(st', t)
  {
    hide Injective, Within;
    forall x | x in st'.tables[t] ensures st'.tables[t][x] < |st'.cells| && Numbered(st', t, x) {
      assert Numbered(st, t, x);
    }
  }

  lemma ArgsFresh(base: Tracking, s: Scope)
    requires ArgumentIds(s) !! base.places.Keys
    ensures ArgIds(s, |s.args|) !! base.places.Keys
    ensures s.self.Some? ==> s.self.value.id !in base.places && s.self.value.id in ArgumentIds(s)
  {
    if s.self.Some? { assert s.self.value.id in ArgumentIds(s); }
    assert ArgIds(s, |s.args|) <= ArgumentIds(s);
  }

  lemma EnterSelf(g: Setting, base: Tracking, st: Tracking, s: Scope)
    requires s.self.Some? && DistinctArgs(s) && ArgumentIds(s) !! base.places.Keys
    requires st.stack != [] && st.Current() == s.id && OnlyArgs(st, s, |s.args|)
    requires Entering(base, st, s.id, |s.args|, false, ArgIds(s, |s.args|))
    requires ArgsResolved(g, st, s, |s.args|, st.stack)
    ensures var st' := EnterArgument(st, s.id, s.self.value, -1);
      Entering(base, st', s.id, |s.args|, true, ArgumentIds(s)) && ParametersResolved(g, st', s, st.stack) &&
      st'.stack == st.stack
  {
    hide Inv, Later, ArgsApart, ArgAt, Resolved, Entering, EnterArgument, Stands;
    var a := s.self.value;
    var st' := EnterArgument(st, s.id, a, -1);
    ArgsFresh(base, s);
    assert ArgumentIds(s) == ArgIds(s, |s.args|) + {a.id};
    EnterArgumentOk(g, base, st, a, -1, |s.args|, ArgIds(s, |s.args|));
    EnteringScope(base, st, s.id, |s.args|, ArgIds(s, |s.args|));
    EnteredStands(st, s.id, a, -1);
    forall j | 0 <= j < |s.args| ensures Resolved(g, st', s.args[j].id, s.args[j].name, st.stack) {
      EnteredStays(g, st, s.id, a, -1, s.args[j].id, s.args[j].name, st.stack);
    }
  }

  lemma EnteredFacts(base: Tracking, st: Tracking, scope: nat, n: int, self: bool, ids: set<nat>)
    requires Entering(base, st, scope, n, self, ids)
    ensures Inv(st) && Later(base, st, ids) && st.tables.Keys == base.tables.Keys + {scope} && ArgsApart(st, scope, n)
  {}

  lemma EnterOk(g: Setting, st: Tracking, s: Scope)
    requires Inv(st) && s.id !in st.tables && DistinctArgs(s) && ArgumentIds(s) !! st.places.Keys
    ensures var st' := Enter(st, s);
      Inv(st') && Later(st, st', ArgumentIds(s)) && st'.tables.Keys == st.tables.Keys + {s.id} &&
      ArgsApart(st', s.id, |s.args|) && ParametersResolved(g, st', s, st'.stack)
  {
    hide Inv, Later, ArgsApart, ArgAt, Resolved, Entering, EnterArgument, EnterArguments, DistinctArgs, Stands;
    var st0 := Opened(st, s.id);
    EnterStarts(st, s.id);
    ArgsFresh(st, s);
    assert ArgIds(s, 0) == {};
    EnterArgumentsOk(g, st, st0, s, 0);
    var st1 := EnterArguments(st0, s, 0);
    if s.self.Some? {
      EnterSelf(g, st, st1, s);
      EnteredFacts(st, Enter(st, s), s.id, |s.args|, true, ArgumentIds(s));
    } else {
      assert ArgumentIds(s) == ArgIds(s, |s.args|);
      EnteredFacts(st, st1, s.id, |s.args|, false, ArgumentIds(s));
    }
  }

  // ----- the visit of a tree -----

  lemma {:induction false} TrackOk(g: Setting, st: Tracking, e: Node)
    requires Orders(g) && Inv(st) && KnowsSelf(st, st.stack) && Unique(e) && Fresh(st, IdsIn(e), ScopesIn(e))
    ensures var st' := Track(g, st, e);
      Visited(st, st', IdsIn(e), ScopesIn(e)) && TreeResolved(g, st', e, st.stack)
    decreases Weight(e), 1
  {
    hide Orders, Inv, Fresh, Visited, Later, Answered, AllResolved, KnowsSelf, Apply, ParametersResolved, Gapless;
    PartsWeighLess(e);
    if ScopeOf(e).Some? {
      TrackScopeOk(g, st, ScopeOf(e).value);
    } else if e.Try? {
      TrackTryOk(g, st, e);
    } else {
      TrackUseOk(g, st, e);
    }
  }

  lemma FreshParts(st: Tracking, e: Node)
    requires ScopeOf(e).None? && Fresh(st, IdsIn(e), ScopesIn(e))
    ensures Fresh(st, IdsOfAll(Parts(e)), ScopesOfAll(Parts(e))) && Fresh(st, IdOf(UseOf(e)), {})
  {
    hide UseOf, Parts, ScopeOf;
  }

  lemma KnownSelf(st: Tracking, st': Tracking, ids: set<nat>, scopes: set<nat>)
    requires Visited(st, st', ids, scopes) && KnowsSelf(st, st.stack)
    ensures KnowsSelf(st', st'.stack) && Inv(st') && Later(st, st', ids) && st'.stack == st.stack
  {
    hide Inv;
  }

  lemma {:induction false} TrackUseOk(g: Setting, st: Tracking, e: Node)
    requires Orders(g) && Inv(st) && KnowsSelf(st, st.stack) && Unique(e) && Fresh(st, IdsIn(e), ScopesIn(e))
    requires ScopeOf(e).None? && !e.Try?
    ensures var st' := Track(g, st, e);
      Visited(st, st', IdsIn(e), ScopesIn(e)) && TreeResolved(g, st', e, st.stack)
    decreases Weight(e), 0
  {
    hide Orders, Inv, Fresh, Visited, Later, Answered, AllResolved, KnowsSelf, Apply, Resolved, UseOf, Parts, ScopeOf;
    PartsWeighLess(e);
    FreshParts(st, e);
    var ps, u := Parts(e), UseOf(e);
    KnowsSelfStack(st);
    var st1 := TrackAll(g, st, ps);
    var st2 := Apply(g, st1, u);
    TrackAllOk(g, st, ps);
    KnownSelf(st, st1, IdsOfAll(ps), ScopesOfAll(ps));
    FreshLater(st, st1, IdsOfAll(ps), ScopesOfAll(ps), IdOf(u), {});
    ApplyVisits(g, st1, u, {});
    VisitedTwice(st, st1, st2, IdsOfAll(ps), ScopesOfAll(ps), IdOf(u), {});
    assert IdsOfAll(ps) + IdOf(u) == IdsIn(e) && ScopesOfAll(ps) + {} == ScopesIn(e);
    KnownSelf(st1, st2, IdOf(u), {});
    AllLater(g, st1, st2, IdOf(u), ps, st.stack);
    if e.Self? { SelfApplied(g, st1, e); }
  }

  lemma KnowsSelfStack(st: Tracking)
    requires KnowsSelf(st, st.stack)
    ensures st.stack != []
  {}

  lemma SelfApplied(g: Setting, st: Tracking, e: Node)
    requires e.Self? && Inv(st) && KnowsSelf(st, st.stack) && Fresh(st, IdOf(UseOf(e)), {})
    ensures Resolved(g, Apply(g, st, UseOf(e)), e.id, "self", st.stack)
  {
    hide Inv, Resolved, KnowsSelf, TrackLookup;
    KnowsSelfStack(st);
    assert e.id in IdOf(UseOf(e));
    SelfFound(g, st, e.id);
  }

  lemma TryParts(e: Node)
    requires e.Try?
    ensures Parts(e).More? && Parts(e).head == e.body && ScopeOf(e).None?
  {}

  lemma FreshSplit(st: Tracking, es: Nodes)
    requires es.More? && Fresh(st, IdsOfAll(es), ScopesOfAll(es))
    ensures Fresh(st, IdsIn(es.head), ScopesIn(es.head)) && Fresh(st, IdsOfAll(es.rest), ScopesOfAll(es.rest))
  {}

  lemma {:induction false} TrackTryOk(g: Setting, st: Tracking, e: Node)
    requires Orders(g) && Inv(st) && KnowsSelf(st, st.stack) && Unique(e) && Fresh(st, IdsIn(e), ScopesIn(e))
    requires e.Try?
    ensures var st' := Track(g, st, e);
      Visited(st, st', IdsIn(e), ScopesIn(e)) && TreeResolved(g, st', e, st.stack)
    decreases Weight(e), 0
  {
    hide Orders, Inv, Fresh, Visited, Later, Answered, KnowsSelf, Apply, Resolved, UseOf, Parts, ScopeOf, Unique,
         TreeResolved, IdsIn, ScopesIn;
    PartsWeighLess(e);
    TryParts(e);
    TryFacts(e);
    FreshParts(st, e);
    var ps, u := Parts(e), UseOf(e);
    FreshSplit(st, ps);
    KnowsSelfStack(st);
    var body, rest := ps.head, ps.rest;
    var st1 := Track(g, st, body);
    var st2 := Apply(g, st1, u);
    var st3 := TrackAll(g, st2, rest);
    TrackOk(g, st, body);
    KnownSelf(st, st1, IdsIn(body), ScopesIn(body));
    FreshLater(st, st1, IdsIn(body), ScopesIn(body), IdOf(u), {});
    FreshLater(st, st1, IdsIn(body), ScopesIn(body), IdsOfAll(rest), ScopesOfAll(rest));
    ApplyVisits(g, st1, u, {});
    KnownSelf(st1, st2, IdOf(u), {});
    FreshLater(st1, st2, IdOf(u), {}, IdsOfAll(rest), ScopesOfAll(rest));
    TrackAllOk(g, st2, rest);
    KnownSelf(st2, st3, IdsOfAll(rest), ScopesOfAll(rest));
    VisitedTwice(st, st1, st2, IdsIn(body), ScopesIn(body), IdOf(u), {});
    VisitedTwice(st, st2, st3, IdsIn(body) + IdOf(u), ScopesIn(body) + {}, IdsOfAll(rest), ScopesOfAll(rest));
    assert IdsIn(body) + IdOf(u) + IdsOfAll(rest) == IdsIn(e);
    assert ScopesIn(body) + {} + ScopesOfAll(rest) == ScopesIn(e);
    TreeLater(g, st1, st2, IdOf(u), body, st.stack);
    TreeLater(g, st2, st3, IdsOfAll(rest), body, st.stack);
    AnsweredLater(g, st2, st3, IdsOfAll(rest), u, st.stack);
    TryResolved(g, st3, e, st.stack);
  }

  lemma TryFacts(e: Node)
    requires e.Try? && Unique(e)
    ensures var ps := Parts(e);
      ps.More? && Unique(ps.head) && UniqueAll(ps.rest) && IdsIn(ps.head) !! IdsOfAll(ps.rest) &&
      ScopesIn(ps.head) !! ScopesOfAll(ps.rest) && IdOf(UseOf(e)) !! IdsIn(ps.head) &&
      IdOf(UseOf(e)) !! IdsOfAll(ps.rest) && IdsIn(e) == IdOf(UseOf(e)) + (IdsIn(ps.head) + IdsOfAll(ps.rest)) &&
      ScopesIn(e) == ScopesIn(ps.head) + ScopesOfAll(ps.rest) &&
      WeightAll(ps) == 1 + Weight(ps.head) + WeightAll(ps.rest)
  {
    hide UseOf, Weight;
    assert IdsOfAll(Parts(e)) == IdsIn(Parts(e).head) + IdsOfAll(Parts(e).rest);
  }

  lemma TryResolved(g: Setting, st: Tracking, e: Node, stack: seq<nat>)
    requires e.Try? && Parts(e).More? && Answered(g, st, UseOf(e), stack)
    requires TreeResolved(g, st, Parts(e).head, stack) && AllResolved(g, st, Parts(e).rest, stack)
    ensures TreeResolved(g, st, e, stack)
  {
    hide UseOf, Answered;
  }

  lemma {:induction false} TrackAllOk(g: Setting, st: Tracking, es: Nodes)
    requires Orders(g) && Inv(st) && KnowsSelf(st, st.stack) && UniqueAll(es) &&
             Fresh(st, IdsOfAll(es), ScopesOfAll(es))
    ensures st.stack != []
    ensures var st' := TrackAll(g, st, es);
      Visited(st, st', IdsOfAll(es), ScopesOfAll(es)) && AllResolved(g, st', es, st.stack)
    decreases WeightAll(es), 0
  {
    hide Orders, Inv, Fresh, Visited, Later, KnowsSelf, TreeResolved, Unique, IdsIn, ScopesIn;
    KnowsSelfStack(st);
    match es
    case NoNodes => NotVisited(st);
    case More(e, rest) =>
      var st1 := Track(g, st, e);
      var st2 := TrackAll(g, st1, rest);
      FreshSplit(st, es);
      TrackOk(g, st, e);
      KnownSelf(st, st1, IdsIn(e), ScopesIn(e));
      FreshLater(st, st1, IdsIn(e), ScopesIn(e), IdsOfAll(rest), ScopesOfAll(rest));
      TrackAllOk(g, st1, rest);
      KnownSelf(st1, st2, IdsOfAll(rest), ScopesOfAll(rest));
      VisitedTwice(st, st1, st2, IdsIn(e), ScopesIn(e), IdsOfAll(rest), ScopesOfAll(rest));
      TreeLater(g, st1, st2, IdsOfAll(rest), e, st.stack);
  }

  lemma NotVisited(st: Tracking)
    requires Inv(st)
    ensures Visited(st, st, {}, {})
  {
    SameLater(st);
  }

  /** Entering a scope from which `self` can be seen, or which has one. */
  lemma EnteredKnowsSelf(g: Setting, st: Tracking, s: Scope)
    requires Later(st, Enter(st, s), ArgumentIds(s)) && ParametersResolved(g, Enter(st, s), s, Enter(st, s).stack)
    requires KnowsSelf(st, st.stack) || (st.stack == [] && s.self.Some? && s.self.value.name == "self")
    ensures KnowsSelf(Enter(st, s), Enter(st, s).stack)
  {
    hide Later, Resolved;
    var st' := Enter(st, s);
    assert st'.stack == st.stack + [s.id];
    if st.stack != [] {
      KnowsSelfLater(st, st', ArgumentIds(s), st.stack);
    } else {
      EnteredSelf(st, s);
    }
  }

  lemma EnteredSelf(st: Tracking, s: Scope)
    requires s.self.Some?
    ensures TableCell(Enter(st, s), s.id, s.self.value.name)
  {}

  lemma {:induction false} TrackScopeOk(g: Setting, st: Tracking, s: Scope)
    requires Orders(g) && Inv(st) && UniqueScope(s)
    requires KnowsSelf(st, st.stack) || (st.stack == [] && s.self.Some? && s.self.value.name == "self")
    requires Fresh(st, ArgumentIds(s) + IdsIn(s.body), {s.id} + ScopesIn(s.body))
    ensures var st' := TrackScope(g, st, s);
      Visited(st, st', ArgumentIds(s) + IdsIn(s.body), {s.id} + ScopesIn(s.body)) &&
      ScopeResolved(g, st', s, st.stack + [s.id])
    decreases Weight(s.body), 2
  {
    hide Orders, Inv, Later, KnowsSelf, TreeResolved, Unique, IdsIn, ScopesIn, Gapless, ParametersResolved, Track,
         Enter,
         Leave, ArgsApart, ArgumentIds, DistinctArgs;
    var st1 := Enter(st, s);
    var st2 := Track(g, st1, s.body);
    var st3 := Leave(g, st2, s);
    assert s.id in {s.id} + ScopesIn(s.body);
    EnterOk(g, st, s);
    EnteredKnowsSelf(g, st, s);
    assert Fresh(st1, IdsIn(s.body), ScopesIn(s.body)) by {
      EnteredFresh(st, st1, ArgumentIds(s), s.id, IdsIn(s.body), ScopesIn(s.body));
    }
    TrackOk(g, st1, s.body);
    ArgsStayApart(st1, st2, IdsIn(s.body), s.id, |s.args|);
    ParametersLater(g, st1, st2, IdsIn(s.body), s, st1.stack);
    LeaveOk(g, st2, s);
    LaterTwice(st, st1, st2, ArgumentIds(s), IdsIn(s.body));
    LaterTwice(st, st2, st3, ArgumentIds(s) + IdsIn(s.body), {});
    assert ArgumentIds(s) + IdsIn(s.body) + {} == ArgumentIds(s) + IdsIn(s.body);
    ParametersLater(g, st2, st3, {}, s, st1.stack);
    TreeLater(g, st2, st3, {}, s.body, st1.stack);
    LeaveTables(g, st2, s);
    assert st1.stack == st.stack + [s.id];
  }

  lemma EnteredFresh(st: Tracking, st': Tracking, ids: set<nat>, scope: nat, ids': set<nat>, scopes: set<nat>)
    requires Later(st, st', ids) && Fresh(st, ids + ids', {scope} + scopes) && ids !! ids' && scope !in scopes
    requires st'.tables.Keys == st.tables.Keys + {scope}
    ensures Fresh(st', ids', scopes)
  {
    forall i | i in ids' ensures i !in st'.places {
      assert i in ids + ids';
    }
    forall t | t in scopes ensures t !in st'.tables {
      assert t in {scope} + scopes;
    }
  }

  lemma LeaveTables(g: Setting, st: Tracking, s: Scope)
    requires st.stack != []
    ensures Leave(g, st, s).tables == st.tables && Leave(g, st, s).stack == st.stack[..|st.stack| - 1]
  {}

  // ----- what the finished analysis says -----

  /** A program whose file body has a `self`, as the parser makes it, with all nodes and scopes apart. */
  ghost predicate WellFormed(top: Scope) { UniqueScope(top) && top.self.Some? && top.self.value.name == "self" }

  lemma AnalyseOk(g: Setting, top: Scope)
    requires Orders(g) && WellFormed(top)
    ensures var st := Analyse(g, top);
      Inv(st) && st.stack == [] && ScopeResolved(g, st, top, [top.id])
  {
    hide UniqueScope, ScopeResolved, Inv, Later, Track, TrackScope, IdsIn, ScopesIn, ArgumentIds;
    assert Inv(Nothing) by { NothingOk(); }
    TrackScopeOk(g, Nothing, top);
    assert [] + [top.id] == [top.id];
  }

  lemma NothingOk()
    ensures Inv(Nothing)
  {}

  /** What a place says about the variable `name`, seen from inside the scopes `stack`. */
  ghost predicate NamesVariable(g: Setting, st: Tracking, loc: Loc, name: string, stack: seq<nat>)
    requires stack != []
  {
    var n := |stack|;
    match loc
    case Reg(r) => var s := stack[n - 1]; s in st.locals && name in st.locals[s] && st.locals[s][name] == r
    case Clo(d, i) =>
      if d == n then name in g.globals && g.globals[name] == i
      else 0 <= d < n && SlotOf(st, stack[n - 1 - d], name, i)
  }

  /** The closure of `scope` keeps variable `name` in slot `i`. */
  ghost predicate SlotOf(st: Tracking, scope: nat, name: string, i: int) {
    scope in st.closed && name in st.closed[scope] && st.closed[scope][name] == i && 0 <= i < |st.closed[scope]|
  }

  lemma VariableCell(st: Tracking, scope: nat, name: string)
    requires Inv(st) && st.stack == [] && TableCell(st, scope, name)
    ensures scope in st.closed && scope in st.locals && st.tables[scope][name] < |st.cells|
    ensures var l := st.cells[st.tables[scope][name]];
      l.kind in {Register, Own, Arg} &&
      if InRegister(l) then name in st.locals[scope] && st.locals[scope][name] == l.idx
      else SlotOf(st, scope, name, l.idx)
  {
    hide Injective;
    assert CellOk(st, scope, name);
    assert Finished(st, scope) && FinishedOk(st, scope);
    assert Numbered(st, scope, name);
  }

  lemma PlaceNamesVariable(g: Setting, st: Tracking, id: nat, name: string, stack: seq<nat>)
    requires Inv(st) && st.stack == [] && Resolved(g, st, id, name, stack)
    ensures id in LayoutOf(st).places && NamesVariable(g, st, LayoutOf(st).places[id], name, stack)
  {
    hide Inv, SlotOf;
    var c, n := st.places[id], |stack|;
    var l := st.cells[c];
    if l.kind == Access {
      VariableCell(st, stack[n - 1 - l.depth], name);
    } else if l.kind != Global {
      VariableCell(st, stack[n - 1], name);
    }
  }

  /** No two variables of a scope share a register or a slot. */
  lemma VariablesApart(st: Tracking, scope: nat, x: string, y: string)
    requires Inv(st) && scope in st.closed && x != y
    ensures scope in st.locals
    ensures x in st.locals[scope] && y in st.locals[scope] ==> st.locals[scope][x] != st.locals[scope][y]
    ensures x in st.closed[scope] && y in st.closed[scope] ==> st.closed[scope][x] != st.closed[scope][y]
  {
    assert Finished(st, scope) && FinishedOk(st, scope);
  }
}
