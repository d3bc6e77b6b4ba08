/**
 Where follow sets come from: the sets that configurations start with, the links along which sets are handed on, and
 what the solution means. A terminal is in the follow set of a configuration exactly when it is generated for some
 configuration and handed on from there, as in the definition of LALR(1) lookaheads.
 */
module LrLookahead {
  import opened Grammars
  import opened LrDriver
  import FirstSets
  import FollowSets
  import Lr0

  /** A configuration of a state. */
  datatype Place = Place(state: nat, config: Config)

  ghost predicate InStates(a: Automaton, p: Place) { p.state < |a.configs| && p.config in a.configs[p.state] }

  // ----- lookaheads -----

  /** The element derives the empty string. */
  ghost predicate CanVanish(g: Grammar, x: Item) { x.One? && FirstSets.Nullable(g, x.sym) }

  /** The element derives a form that begins with terminal `t`. */
  ghost predicate CanBegin(g: Grammar, x: Item, t: nat) {
    match x
    case One(s) => t < g.nterm && FirstSets.Begins(g, s, t)
    case Many(subs) => t in subs
  }

  /** The elements of rule `r` from `i` up to `k` derive the empty string. */
  ghost predicate Vanish(g: Grammar, r: nat, i: nat, k: nat)
    requires r < |g.rules|
  {
    forall j :: i <= j < k <= |g.rules[r].rhs| ==> CanVanish(g, g.rules[r].rhs[j])
  }

  /** The elements of rule `r` from `i` on, but before `n`, derive a form that begins with terminal `t`. */
  ghost predicate BeginsWithin(g: Grammar, r: nat, i: nat, n: nat, t: nat)
    requires r < |g.rules|
  {
    exists k :: i <= k < n <= |g.rules[r].rhs| && Vanish(g, r, i, k) && CanBegin(g, g.rules[r].rhs[k], t)
  }

  /** `p` waits for the left side of the rule that `q` starts, in the same state. */
  ghost predicate Opens(g: Grammar, p: Place, q: Place) {
    p.state == q.state && q.config.dot == 0 && q.config.rule < |g.rules| &&
    Before(g, p.config, One(g.rules[q.config.rule].lhs))
  }

  /** What follows the awaited nonterminal can begin with `t`. */
  ghost predicate Generates(g: Grammar, p: Place, q: Place, t: nat) {
    Opens(g, p, q) && BeginsWithin(g, p.config.rule, p.config.dot + 1, |g.rules[p.config.rule].rhs|, t)
  }

  /** The end of the input follows the start rules in the first state. */
  ghost predicate AtEnd(g: Grammar, q: Place, t: nat) {
    t == 0 && q.state == 0 && q.config.dot == 0 && q.config.rule < |g.rules| && g.rules[q.config.rule].lhs == g.start
  }

  ghost predicate Generated(g: Grammar, a: Automaton, q: Place, t: nat) {
    AtEnd(g, q, t) || exists p :: InStates(a, p) && Generates(g, p, q, t)
  }

  /** What follows the awaited nonterminal can be empty, so what follows `p` follows `q`. */
  ghost predicate PassesDown(g: Grammar, p: Place, q: Place) {
    Opens(g, p, q) && Vanish(g, p.config.rule, p.config.dot + 1, |g.rules[p.config.rule].rhs|)
  }

  /** `q` is `p` with the dot moved on. */
  ghost predicate PassesOn(g: Grammar, a: Automaton, p: Place, q: Place) {
    p.state < |a.goto| && p.config.rule < |g.rules| && p.config.dot < |g.rules[p.config.rule].rhs| &&
    var x := g.rules[p.config.rule].rhs[p.config.dot];
    x in a.goto[p.state] && q == Place(a.goto[p.state][x], Config(p.config.rule, p.config.dot + 1))
  }

  ghost predicate Passes(g: Grammar, a: Automaton, p: Place, q: Place) { PassesDown(g, p, q) || PassesOn(g, a, p, q) }

  /** A way through configurations that each hand on what follows them, from one for which `t` was generated. */
  ghost predicate Route(g: Grammar, a: Automaton, ps: seq<Place>, t: nat) {
    ps != [] && Generated(g, a, ps[0], t) && (forall i :: 0 <= i < |ps| ==> InStates(a, ps[i])) &&
    forall i :: 0 < i < |ps| ==> Passes(g, a, ps[i - 1], ps[i])
  }

  /** The lookaheads of a configuration. */
  ghost predicate Lookahead(g: Grammar, a: Automaton, p: Place, t: nat) {
    exists ps :: Route(g, a, ps, t) && ps[|ps| - 1] == p
  }

  // ----- the graph the generator builds -----

  /** The places are those of the automaton, each once. */
  ghost predicate AllPlaces(a: Automaton, ps: seq<Place>) {
    Lr0.NoDup(ps) && forall p :: p in ps <==> InStates(a, p)
  }

  ghost predicate SeedsExact(g: Grammar, a: Automaton, ps: seq<Place>, seeds: seq<set<nat>>) {
    |seeds| == |ps| && forall k, t: nat :: 0 <= k < |ps| ==> (t in seeds[k] <==> Generated(g, a, ps[k], t))
  }

  ghost predicate LinksExact(g: Grammar, a: Automaton, ps: seq<Place>, links: seq<seq<nat>>) {
    |links| == |ps| && forall i :: 0 <= i < |ps| ==>
      (forall k :: k in links[i] ==> k < |ps|) &&
      forall k: nat :: k < |ps| ==> (k in links[i] <==> Passes(g, a, ps[i], ps[k]))
  }

  /** The terminals with a route to a place. */
  ghost function Ahead(g: Grammar, a: Automaton, p: Place): set<nat> {
    set t | 0 <= t < g.nterm && Lookahead(g, a, p, t)
  }

  lemma GeneratedTerminal(g: Grammar, a: Automaton, p: Place, t: nat)
    requires g.Valid() && Generated(g, a, p, t)
    ensures t < g.nterm
  {
    hide FirstSets.Begins, FirstSets.Nullable;
    if !AtEnd(g, p, t) {
      var o :| InStates(a, o) && Generates(g, o, p, t);
      var r := o.config.rule;
      var k :| o.config.dot + 1 <= k < |g.rules[r].rhs| && CanBegin(g, g.rules[r].rhs[k], t);
      assert g.ItemOk(g.rules[r].rhs[k]);
    }
  }

  lemma GeneratedAhead(g: Grammar, a: Automaton, p: Place, t: nat)
    requires g.Valid() && InStates(a, p) && Generated(g, a, p, t)
    ensures t in Ahead(g, a, p)
  {
    hide Generated, InStates;
    GeneratedTerminal(g, a, p, t);
    assert Route(g, a, [p], t);
  }

  lemma PassedAhead(g: Grammar, a: Automaton, p: Place, q: Place)
    requires InStates(a, q) && Passes(g, a, p, q)
    ensures Ahead(g, a, p) <= Ahead(g, a, q)
  {
    hide Generated, InStates, Passes;
    forall t | t in Ahead(g, a, p) ensures t in Ahead(g, a, q) {
      var ps :| Route(g, a, ps, t) && ps[|ps| - 1] == p;
      var qs := ps + [q];
      assert forall i :: 0 <= i < |ps| ==> qs[i] == ps[i];
      assert Route(g, a, qs, t);
    }
  }

  /** The least solution of the graph holds exactly the lookaheads. */
  lemma FollowSetsAreLookaheads(g: Grammar, a: Automaton, ps: seq<Place>, f: FollowSets.Graph, sets: seq<set<nat>>)
    requires g.Valid() && AllPlaces(a, ps) && SeedsExact(g, a, ps, f.seeds) && LinksExact(g, a, ps, f.links)
    requires f.Valid() && FollowSets.HoldsSeeds(f, sets) && FollowSets.Closed(f, sets) && FollowSets.BelowAll(f, sets)
    ensures forall k, t: nat :: 0 <= k < |ps| ==> (t in sets[k] <==> Lookahead(g, a, ps[k], t))
  {
    hide Generated, InStates, Passes, Lookahead, FollowSets.BelowAll;
    var xs := seq(|ps|, k requires 0 <= k < |ps| => Ahead(g, a, ps[k]));
    AheadSolves(g, a, ps, f, xs);
    LeastBelow(f, sets, xs);
    forall k, t: nat | 0 <= k < |ps| && Lookahead(g, a, ps[k], t) ensures t in sets[k] {
      RouteFollowed(g, a, ps, f, sets, k, t);
    }
    assert forall k, t: nat :: 0 <= k < |ps| && t in sets[k] ==> t in xs[k];
  }

  lemma LeastBelow(f: FollowSets.Graph, sets: seq<set<nat>>, xs: seq<set<nat>>)
    requires f.Valid() && |sets| == |f.seeds| && FollowSets.BelowAll(f, sets)
    requires FollowSets.HoldsSeeds(f, xs) && FollowSets.Closed(f, xs)
    ensures FollowSets.Below(sets, xs)
  {}

  lemma AheadSolves(g: Grammar, a: Automaton, ps: seq<Place>, f: FollowSets.Graph, xs: seq<set<nat>>)
    requires g.Valid() && AllPlaces(a, ps) && SeedsExact(g, a, ps, f.seeds) && LinksExact(g, a, ps, f.links) &&
             f.Valid()
    requires |xs| == |ps| && forall k :: 0 <= k < |ps| ==> xs[k] == Ahead(g, a, ps[k])
    ensures FollowSets.HoldsSeeds(f, xs) && FollowSets.Closed(f, xs)
  {
    hide Generated, InStates, Passes, Ahead;
    forall k | 0 <= k < |ps| ensures f.seeds[k] <= xs[k] {
      forall t | t in f.seeds[k] ensures t in xs[k] {
        assert ps[k] in ps;
        GeneratedAhead(g, a, ps[k], t);
      }
    }
    forall i | 0 <= i < |f.links| ensures FollowSets.Served(f, xs, i, |f.links[i]|) {
      forall k | 0 <= k < |f.links[i]| ensures xs[i] <= xs[f.links[i][k]] {
        var j := f.links[i][k];
        assert j in f.links[i] && ps[j] in ps;
        PassedAhead(g, a, ps[i], ps[j]);
      }
    }
  }

  lemma RouteFollowed(g: Grammar, a: Automaton, ps: seq<Place>, f: FollowSets.Graph, sets: seq<set<nat>>, k: nat,
                      t: nat)
    requires AllPlaces(a, ps) && SeedsExact(g, a, ps, f.seeds) && LinksExact(g, a, ps, f.links) && f.Valid()
    requires FollowSets.HoldsSeeds(f, sets) && FollowSets.Closed(f, sets)
    requires k < |ps| && Lookahead(g, a, ps[k], t)
    ensures t in sets[k]
  {
    hide Generated, InStates, Passes, AllPlaces, SeedsExact, LinksExact, FollowSets.HoldsSeeds, FollowSets.Closed;
    var rs :| Route(g, a, rs, t) && rs[|rs| - 1] == ps[k];
    RouteReaches(g, a, ps, f, sets, rs, k, t);
  }

  lemma {:induction false} RouteReaches(g: Grammar, a: Automaton, ps: seq<Place>, f: FollowSets.Graph,
                                        sets: seq<set<nat>>,
                                        rs: seq<Place>, k: nat, t: nat)
    requires AllPlaces(a, ps) && SeedsExact(g, a, ps, f.seeds) && LinksExact(g, a, ps, f.links) && f.Valid()
    requires FollowSets.HoldsSeeds(f, sets) && FollowSets.Closed(f, sets)
    requires k < |ps| && Route(g, a, rs, t) && rs[|rs| - 1] == ps[k]
    ensures t in sets[k]
    decreases |rs|
  {
    hide Generated, InStates, Passes;
    var n := |rs| - 1;
    if n == 0 {
      assert t in f.seeds[k];
    } else {
      var p := rs[n - 1];
      assert InStates(a, p) && Passes(g, a, p, ps[k]);
      assert p in ps;
      var i :| 0 <= i < |ps| && ps[i] == p;
      assert Route(g, a, rs[..n], t);
      RouteReaches(g, a, ps, f, sets, rs[..n], i, t);
      assert k in f.links[i];
      var j :| 0 <= j < |f.links[i]| && f.links[i][j] == k;
      assert FollowSets.Served(f, sets, i, |f.links[i]|);
      assert sets[i] <= sets[f.links[i][j]];
    }
  }

  // ----- the start rules -----

  /** A start rule is followed by the end of the input and nothing else. */
  lemma StartBeforeEnd(g: Grammar, a: Automaton, p: Place, t: nat)
    requires g.Valid() && p.config.rule < |g.rules| && g.rules[p.config.rule].lhs == g.start && Lookahead(g, a, p, t)
    ensures t == 0
  {
    hide Generated, InStates, Passes;
    var ps :| Route(g, a, ps, t) && ps[|ps| - 1] == p;
    StartRoute(g, a, ps, t);
  }

  lemma {:induction false} StartRoute(g: Grammar, a: Automaton, ps: seq<Place>, t: nat)
    requires g.Valid() && Route(g, a, ps, t)
    requires var p := ps[|ps| - 1]; p.config.rule < |g.rules| && g.rules[p.config.rule].lhs == g.start
    ensures t == 0
    decreases |ps|
  {
    hide Generated, InStates, Passes;
    var n := |ps| - 1;
    if n == 0 {
      StartGenerated(g, a, ps[0], t);
    } else {
      StartPassed(g, a, ps[n - 1], ps[n]);
      assert Route(g, a, ps[..n], t);
      StartRoute(g, a, ps[..n], t);
    }
  }

  lemma NotOpened(g: Grammar, p: Place, q: Place)
    requires g.Valid() && q.config.rule < |g.rules| && g.rules[q.config.rule].lhs == g.start
    ensures !Opens(g, p, q)
  {}

  lemma StartGenerated(g: Grammar, a: Automaton, q: Place, t: nat)
    requires g.Valid() && q.config.rule < |g.rules| && g.rules[q.config.rule].lhs == g.start && Generated(g, a, q, t)
    ensures t == 0
  {
    hide Opens, BeginsWithin;
    forall p ensures !Opens(g, p, q) { NotOpened(g, p, q); }
  }

  lemma StartPassed(g: Grammar, a: Automaton, p: Place, q: Place)
    requires g.Valid() && q.config.rule < |g.rules| && g.rules[q.config.rule].lhs == g.start && Passes(g, a, p, q)
    ensures p.config.rule == q.config.rule
  {
    NotOpened(g, p, q);
  }

  // ----- building the graph -----

  function PlacesOf(q: nat, cs: seq<Config>): (ps: seq<Place>)
    ensures |ps| == |cs| && forall i :: 0 <= i < |ps| ==> ps[i] == Place(q, cs[i])
  {
    seq(|cs|, i requires 0 <= i < |cs| => Place(q, cs[i]))
  }

  /** The configurations of the first `n` states, one after the other. */
  function Places(states: seq<Lr0.State>, n: nat): seq<Place>
    requires n <= |states|
  {
    if n == 0 then [] else Places(states, n - 1) + PlacesOf(n - 1, states[n - 1].configs)
  }

  lemma {:induction false} PlacesBelow(g: Grammar, states: seq<Lr0.State>, n: nat)
    requires Lr0.Built(g, states) && n <= |states|
    ensures Lr0.NoDup(Places(states, n))
    ensures forall p :: p in Places(states, n) <==> p.state < n && p.config in states[p.state].configs
  {
    hide Lr0.Built;
    if n > 0 {
      PlacesBelow(g, states, n - 1);
      DistinctConfigs(g, states, n - 1);
      var ps, qs := Places(states, n - 1), PlacesOf(n - 1, states[n - 1].configs);
      forall p: Place | p.state == n - 1 && p.config in states[n - 1].configs ensures p in qs {
        var i :| 0 <= i < |qs| && states[n - 1].configs[i] == p.config;
        assert qs[i] == p;
      }
      forall i, j | 0 <= i < |ps| && 0 <= j < |qs| ensures ps[i] != qs[j] { assert ps[i] in ps; }
    }
  }

  lemma DistinctConfigs(g: Grammar, states: seq<Lr0.State>, q: nat)
    requires Lr0.Built(g, states) && q < |states|
    ensures Lr0.NoDup(states[q].configs)
  {
    assert Lr0.Shape(g, states, q);
  }

  lemma PlacesAreAll(g: Grammar, states: seq<Lr0.State>)
    requires Lr0.Built(g, states)
    ensures AllPlaces(Lr0.AutomatonOf(states), Places(states, |states|))
  {
    hide Lr0.Built;
    PlacesBelow(g, states, |states|);
    var a := Lr0.AutomatonOf(states);
    forall p: Place ensures InStates(a, p) <==> p.state < |states| && p.config in states[p.state].configs {
      if p.state < |states| && p.config in states[p.state].configs {
        var i :| 0 <= i < |states[p.state].configs| && states[p.state].configs[i] == p.config;
      }
    }
  }

  function IndexOf(ps: seq<Place>, p: Place): (i: nat)
    requires p in ps
    ensures i < |ps| && ps[i] == p
  {
    if ps[0] == p then 0 else 1 + IndexOf(ps[1..], p)
  }

  /** What `FindFirstSets` leaves. */
  ghost predicate SetsExact(g: Grammar, lambda: set<nat>, first: seq<set<nat>>) {
    |first| == g.nsym && forall s :: g.nterm <= s < g.nsym ==>
      (s in lambda <==> FirstSets.Nullable(g, s)) &&
      forall x: nat :: x in first[s] <==> x < g.nterm && FirstSets.Begins(g, s, x)
  }

  /** What an element adds to a set, and whether the elements after it count too. */
  function Share(g: Grammar, first: seq<set<nat>>, x: Item): set<nat>
    requires |first| == g.nsym && g.ItemOk(x)
  {
    match x
    case Many(subs) => set j | 0 <= j < |subs| :: subs[j]
    case One(s) => if s < g.nterm then {s} else first[s]
  }

  predicate Lets(g: Grammar, lambda: set<nat>, x: Item) { x.One? && x.sym >= g.nterm && x.sym in lambda }

  lemma ShareIs(g: Grammar, lambda: set<nat>, first: seq<set<nat>>, x: Item, t: nat)
    requires g.Valid() && SetsExact(g, lambda, first) && g.ItemOk(x)
    ensures t in Share(g, first, x) <==> CanBegin(g, x, t)
    ensures Lets(g, lambda, x) <==> CanVanish(g, x)
  {
    match x
    case Many(subs) =>
      if t in subs {
        var j :| 0 <= j < |subs| && subs[j] == t;
      }
    case One(s) => if s < g.nterm { TerminalBegins(g, s, t); }
  }

  lemma TerminalBegins(g: Grammar, s: nat, t: nat)
    requires g.Valid() && s < g.nterm
    ensures FirstSets.Begins(g, s, t) <==> t == s
    ensures !FirstSets.Nullable(g, s)
  {
    FirstSets.LeafBegins(g, s);
    forall d | Derivation(g, d) && Root(g, d) == s ensures d == Leaf(s) {}
  }

  /** The inner loop of `Configlist_closure`: the elements after the one that `c` waits for. */
  method CloseTail(g: Grammar, lambda: set<nat>, first: seq<set<nat>>, c: Config) returns (s: set<nat>, through: bool)
    requires g.Valid() && SetsExact(g, lambda, first) && ConfigOk(g, c) && c.dot < |g.rules[c.rule].rhs|
    ensures forall t: nat :: t in s <==> BeginsWithin(g, c.rule, c.dot + 1, |g.rules[c.rule].rhs|, t)
    ensures through <==> Vanish(g, c.rule, c.dot + 1, |g.rules[c.rule].rhs|)
  {
    hide SetsExact, CanBegin, CanVanish;
    SizeOf(g, lambda, first);
    s, through := {}, true;
    for i := c.dot + 1 to |g.rules[c.rule].rhs|
      invariant Vanish(g, c.rule, c.dot + 1, i) && through
      invariant forall t: nat :: t in s <==> BeginsWithin(g, c.rule, c.dot + 1, i, t)
    {
      var x := g.rules[c.rule].rhs[i];
      forall t: nat ensures t in Share(g, first, x) <==> CanBegin(g, x, t) { ShareIs(g, lambda, first, x, t); }
      ShareIs(g, lambda, first, x, 0);
      OneMore(g, c.rule, c.dot + 1, i);
      s := s + Share(g, first, x);
      if !Lets(g, lambda, x) {
        Blocked(g, c.rule, c.dot + 1, i);
        return s, false;
      }
    }
  }

  lemma SizeOf(g: Grammar, lambda: set<nat>, first: seq<set<nat>>)
    requires SetsExact(g, lambda, first)
    ensures |first| == g.nsym
  {}

  lemma OneMore(g: Grammar, r: nat, i: nat, n: nat)
    requires r < |g.rules| && i <= n < |g.rules[r].rhs| && Vanish(g, r, i, n)
    ensures forall t: nat ::
      BeginsWithin(g, r, i, n + 1, t) <==> BeginsWithin(g, r, i, n, t) || CanBegin(g, g.rules[r].rhs[n], t)
    ensures Vanish(g, r, i, n + 1) <==> CanVanish(g, g.rules[r].rhs[n])
  {
    hide CanBegin, CanVanish;
    forall t: nat | BeginsWithin(g, r, i, n, t) ensures BeginsWithin(g, r, i, n + 1, t) {
      var k :| i <= k < n && Vanish(g, r, i, k) && CanBegin(g, g.rules[r].rhs[k], t);
    }
  }

  /** Past an element that is not empty nothing counts. */
  lemma Blocked(g: Grammar, r: nat, i: nat, n: nat)
    requires r < |g.rules| && i <= n < |g.rules[r].rhs| && !CanVanish(g, g.rules[r].rhs[n])
    ensures !Vanish(g, r, i, |g.rules[r].rhs|)
    ensures forall t: nat :: BeginsWithin(g, r, i, |g.rules[r].rhs|, t) ==> BeginsWithin(g, r, i, n + 1, t)
  {
    hide CanBegin, CanVanish;
    forall t: nat | BeginsWithin(g, r, i, |g.rules[r].rhs|, t) ensures BeginsWithin(g, r, i, n + 1, t) {
      var k :| i <= k < |g.rules[r].rhs| && Vanish(g, r, i, k) && CanBegin(g, g.rules[r].rhs[k], t);
    }
  }

  /** The seeds after the closures of the first `n` places, and of the rules below `r` at the next. */
  ghost predicate SeededBy(g: Grammar, ps: seq<Place>, seeds: seq<set<nat>>, n: nat, r: nat) {
    |seeds| == |ps| && forall k, t: nat :: 0 <= k < |ps| ==> (t in seeds[k] <==> Seeded(g, ps, n, r, k, t))
  }

  ghost predicate Seeded(g: Grammar, ps: seq<Place>, n: nat, r: nat, k: nat, t: nat)
    requires k < |ps|
  {
    AtEnd(g, ps[k], t) || FromBelow(g, ps, n, k, t) ||
    (n < |ps| && ps[k].config.rule < r && Generates(g, ps[n], ps[k], t))
  }

  ghost predicate FromBelow(g: Grammar, ps: seq<Place>, n: nat, k: nat, t: nat)
    requires k < |ps|
  {
    exists i :: 0 <= i < n <= |ps| && Generates(g, ps[i], ps[k], t)
  }

  /** The links made by then. */
  ghost predicate LinkedBy(g: Grammar, ps: seq<Place>, links: seq<seq<nat>>, n: nat, r: nat) {
    |links| == |ps| && (forall i, k :: 0 <= i < |ps| && k in links[i] ==> k < |ps|) &&
    forall i, k :: 0 <= i < |ps| && 0 <= k < |ps| ==> (k in links[i] <==> Linked(g, ps, n, r, i, k))
  }

  ghost predicate Linked(g: Grammar, ps: seq<Place>, n: nat, r: nat, i: nat, k: nat)
    requires i < |ps| && k < |ps|
  {
    PassesDown(g, ps[i], ps[k]) && (i < n || (i == n && ps[k].config.rule < r))
  }

  /** A place is opened only by its rule, and only once. */
  lemma OpensOne(g: Grammar, ps: seq<Place>, n: nat, r: nat, k: nat)
    requires Lr0.NoDup(ps) && n < |ps| && k < |ps| && r < |g.rules| && ps[k].config.rule == r
    ensures Opens(g, ps[n], ps[k]) <==>
      ps[k] == Place(ps[n].state, Config(r, 0)) && Before(g, ps[n].config, One(g.rules[r].lhs))
  {}

  lemma RuleSeeded(g: Grammar, ps: seq<Place>, seeds: seq<set<nat>>, n: nat, r: nat, j: nat, s: set<nat>)
    requires Lr0.NoDup(ps) && n < |ps| && j < |ps| && r < |g.rules| && SeededBy(g, ps, seeds, n, r)
    requires ps[j] == Place(ps[n].state, Config(r, 0)) && Before(g, ps[n].config, One(g.rules[r].lhs))
    requires var c := ps[n].config;
      forall t: nat :: t in s <==> BeginsWithin(g, c.rule, c.dot + 1, |g.rules[c.rule].rhs|, t)
    ensures SeededBy(g, ps, seeds[j := seeds[j] + s], n, r + 1)
  {
    hide BeginsWithin, AtEnd, FromBelow, Before, Opens;
    var next := seeds[j := seeds[j] + s];
    forall k, t: nat | 0 <= k < |ps| ensures t in next[k] <==> Seeded(g, ps, n, r + 1, k, t) {
      if ps[k].config.rule == r { OpensOne(g, ps, n, r, k); }
      assert ps[k] == ps[j] ==> k == j;
      assert t in seeds[k] <==> Seeded(g, ps, n, r, k, t);
    }
  }

  lemma RuleLinked(g: Grammar, ps: seq<Place>, links: seq<seq<nat>>, n: nat, r: nat, j: nat, through: bool)
    requires Lr0.NoDup(ps) && n < |ps| && j < |ps| && r < |g.rules| && LinkedBy(g, ps, links, n, r)
    requires ps[j] == Place(ps[n].state, Config(r, 0)) && Before(g, ps[n].config, One(g.rules[r].lhs))
    requires var c := ps[n].config; through <==> Vanish(g, c.rule, c.dot + 1, |g.rules[c.rule].rhs|)
    ensures LinkedBy(g, ps, if through then links[n := links[n] + [j]] else links, n, r + 1)
  {
    hide Vanish, Before, Opens;
    var next := if through then links[n := links[n] + [j]] else links;
    forall i, k | 0 <= i < |ps| && 0 <= k < |ps| ensures k in next[i] <==> Linked(g, ps, n, r + 1, i, k) {
      if ps[k].config.rule == r { OpensOne(g, ps, n, r, k); }
      assert ps[k] == ps[j] ==> k == j;
      assert k in links[i] <==> Linked(g, ps, n, r, i, k);
    }
  }

  /** A rule the place does not wait for changes nothing. */
  lemma RulePassed(g: Grammar, ps: seq<Place>, seeds: seq<set<nat>>, links: seq<seq<nat>>, n: nat, r: nat)
    requires Lr0.NoDup(ps) && n < |ps| && r < |g.rules| && SeededBy(g, ps, seeds, n, r) && LinkedBy(g, ps, links, n, r)
    requires !Before(g, ps[n].config, One(g.rules[r].lhs))
    ensures SeededBy(g, ps, seeds, n, r + 1) && LinkedBy(g, ps, links, n, r + 1)
  {
    hide BeginsWithin, Vanish, AtEnd, FromBelow, Before, Opens;
    forall k, t: nat | 0 <= k < |ps| ensures t in seeds[k] <==> Seeded(g, ps, n, r + 1, k, t) {
      if ps[k].config.rule == r { OpensOne(g, ps, n, r, k); }
      assert t in seeds[k] <==> Seeded(g, ps, n, r, k, t);
    }
    forall i, k | 0 <= i < |ps| && 0 <= k < |ps| ensures k in links[i] <==> Linked(g, ps, n, r + 1, i, k) {
      if ps[k].config.rule == r { OpensOne(g, ps, n, r, k); }
      assert k in links[i] <==> Linked(g, ps, n, r, i, k);
    }
  }

  lemma NextPlace(g: Grammar, ps: seq<Place>, seeds: seq<set<nat>>, links: seq<seq<nat>>, n: nat)
    requires n < |ps| && SeededBy(g, ps, seeds, n, |g.rules|) && LinkedBy(g, ps, links, n, |g.rules|)
    ensures SeededBy(g, ps, seeds, n + 1, 0) && LinkedBy(g, ps, links, n + 1, 0)
  {
    hide BeginsWithin, Vanish, AtEnd, Before;
    forall k, t: nat | 0 <= k < |ps| ensures t in seeds[k] <==> Seeded(g, ps, n + 1, 0, k, t) {
      assert t in seeds[k] <==> Seeded(g, ps, n, |g.rules|, k, t);
      if FromBelow(g, ps, n, k, t) {
        var i :| 0 <= i < n && Generates(g, ps[i], ps[k], t);
      }
    }
    forall i, k | 0 <= i < |ps| && 0 <= k < |ps| ensures k in links[i] <==> Linked(g, ps, n + 1, 0, i, k) {
      assert k in links[i] <==> Linked(g, ps, n, |g.rules|, i, k);
    }
  }

  /** `Configlist_closure` at one configuration: seeds and links for the starts of all rules it waits for. */
  method ClosePlace(g: Grammar, a: Automaton, ps: seq<Place>, lambda: set<nat>, first: seq<set<nat>>,
                    seeds: seq<set<nat>>, links: seq<seq<nat>>, n: nat)
    returns (seeds': seq<set<nat>>, links': seq<seq<nat>>)
    requires g.Valid() && SetsExact(g, lambda, first) && AutomatonOk(g, a) && AllPlaces(a, ps) && n < |ps|
    requires forall q :: 0 <= q < |a.configs| ==> Lr0.Closed(g, a.configs[q])
    requires SeededBy(g, ps, seeds, n, 0) && LinkedBy(g, ps, links, n, 0)
    ensures SeededBy(g, ps, seeds', n + 1, 0) && LinkedBy(g, ps, links', n + 1, 0)
  {
    hide SetsExact, AutomatonOk, AllPlaces, Lr0.Closed, BeginsWithin, Vanish, Seeded, Linked, Lr0.NoDup;
    seeds', links' := seeds, links;
    var p := ps[n];
    var c := p.config;
    PlaceOk(g, a, ps, n);
    for r := 0 to |g.rules|
      invariant SeededBy(g, ps, seeds', n, r) && LinkedBy(g, ps, links', n, r)
    {
      if c.dot < |g.rules[c.rule].rhs| && g.rules[c.rule].rhs[c.dot] == One(g.rules[r].lhs) {
        StartPlace(g, a, ps, n, r);
        var j := IndexOf(ps, Place(p.state, Config(r, 0)));
        var s, through := CloseTail(g, lambda, first, c);
        RuleSeeded(g, ps, seeds', n, r, j, s);
        RuleLinked(g, ps, links', n, r, j, through);
        seeds' := seeds'[j := seeds'[j] + s];
        if through { links' := links'[n := links'[n] + [j]]; }
      } else {
        RulePassed(g, ps, seeds', links', n, r);
      }
    }
    NextPlace(g, ps, seeds', links', n);
  }

  lemma PlaceOk(g: Grammar, a: Automaton, ps: seq<Place>, n: nat)
    requires AutomatonOk(g, a) && AllPlaces(a, ps) && n < |ps|
    ensures ConfigOk(g, ps[n].config) && InStates(a, ps[n]) && Lr0.NoDup(ps)
  {
    assert ps[n] in ps;
    assert StateOk(g, a, ps[n].state);
  }

  lemma StartPlace(g: Grammar, a: Automaton, ps: seq<Place>, n: nat, r: nat)
    requires AllPlaces(a, ps) && n < |ps| && r < |g.rules| && Before(g, ps[n].config, One(g.rules[r].lhs))
    requires forall q :: 0 <= q < |a.configs| ==> Lr0.Closed(g, a.configs[q])
    ensures Place(ps[n].state, Config(r, 0)) in ps
  {
    assert ps[n] in ps;
    assert Lr0.Closed(g, a.configs[ps[n].state]);
  }

  // ----- links from state to state -----

  ghost predicate Bounded(links: seq<seq<nat>>, n: nat) {
    forall i: nat, k: nat :: 0 <= i < |links| && k in links[i] ==> k < n
  }

  /** `back[k]` holds the first `n` places that pass on to place `k`. */
  ghost predicate BackBy(g: Grammar, a: Automaton, ps: seq<Place>, back: seq<seq<nat>>, n: nat) {
    |back| == |ps| && Bounded(back, |ps|) &&
    forall i: nat, k: nat :: i < |ps| && k < |ps| ==> (i in back[k] <==> FromPlace(g, a, ps, n, i, k))
  }

  ghost predicate FromPlace(g: Grammar, a: Automaton, ps: seq<Place>, n: nat, i: nat, k: nat)
    requires i < |ps| && k < |ps|
  {
    i < n && PassesOn(g, a, ps[i], ps[k])
  }

  /** Where a configuration goes when its dot moves on: its place in the state that the element leads to. */
  function Moved(g: Grammar, a: Automaton, p: Place): Place
    requires p.config.rule < |g.rules| && p.config.dot < |g.rules[p.config.rule].rhs| && p.state < |a.goto|
    requires g.rules[p.config.rule].rhs[p.config.dot] in a.goto[p.state]
  {
    Place(a.goto[p.state][g.rules[p.config.rule].rhs[p.config.dot]], Config(p.config.rule, p.config.dot + 1))
  }

  lemma MovedPlace(g: Grammar, states: seq<Lr0.State>, ps: seq<Place>, p: Place)
    requires Lr0.Built(g, states) && AllPlaces(Lr0.AutomatonOf(states), ps) && InStates(Lr0.AutomatonOf(states), p)
    requires ConfigOk(g, p.config) && p.config.dot < |g.rules[p.config.rule].rhs|
    ensures var a := Lr0.AutomatonOf(states);
      g.rules[p.config.rule].rhs[p.config.dot] in a.goto[p.state] && Moved(g, a, p) in ps
  {
    var x, s := g.rules[p.config.rule].rhs[p.config.dot], states[p.state];
    assert Before(g, p.config, x);
    InConfigs(states, p);
    assert Lr0.Complete(g, s) && Lr0.Shifts(s, x);
    var k :| 0 <= k < |s.shifts| && s.shifts[k].item == x;
    ShiftTarget(g, states, p, k);
  }

  lemma InConfigs(states: seq<Lr0.State>, p: Place)
    requires InStates(Lr0.AutomatonOf(states), p)
    ensures p.state < |states| && p.config in states[p.state].configs
  {}

  lemma ShiftTarget(g: Grammar, states: seq<Lr0.State>, p: Place, k: nat)
    requires Lr0.Built(g, states) && p.state < |states| && p.config in states[p.state].configs
    requires k < |states[p.state].shifts| && Before(g, p.config, states[p.state].shifts[k].item)
    ensures var a, x := Lr0.AutomatonOf(states), states[p.state].shifts[k].item;
      x in a.goto[p.state] && InStates(a, Place(a.goto[p.state][x], Config(p.config.rule, p.config.dot + 1)))
  {
    var s, t := states[p.state], states[p.state].shifts[k].target;
    var d := Config(p.config.rule, p.config.dot + 1);
    assert Lr0.Shape(g, states, p.state) && Lr0.ShiftOk(g, states, p.state, k);
    Lr0.GotoIs(s.shifts);
    var i :| 0 <= i < |s.configs| && s.configs[i] == p.config;
    assert p.config in Lr0.Elems(s.configs);
    assert d in Lr0.Moved(g, Lr0.Elems(s.configs), s.shifts[k].item);
    assert Lr0.Shape(g, states, t);
    assert d in Lr0.Elems(states[t].configs);
  }

  /** The back links that `buildshifts` makes. */
  method BackLinks(g: Grammar, states: seq<Lr0.State>, ps: seq<Place>) returns (back: seq<seq<nat>>)
    requires g.Valid() && Lr0.Built(g, states) && AllPlaces(Lr0.AutomatonOf(states), ps)
    ensures BackBy(g, Lr0.AutomatonOf(states), ps, back, |ps|)
  {
    hide Lr0.Built, AllPlaces, Lr0.AutomatonOf, InStates, BackBy, Lr0.NoDup, Moved;
    var a := Lr0.AutomatonOf(states);
    Lr0.BuiltIsAutomaton(g, states);
    back := seq(|ps|, _ => []);
    NoneBack(g, a, ps, back);
    for i := 0 to |ps|
      invariant BackBy(g, a, ps, back, i) && |back| == |ps|
    {
      var p := ps[i];
      PlaceOk(g, a, ps, i);
      if p.config.dot < |g.rules[p.config.rule].rhs| {
        MovedPlace(g, states, ps, p);
        StateThere(a, p);
        var k := IndexOf(ps, Moved(g, a, p));
        BackNext(g, a, ps, back, i, k);
        back := back[k := back[k] + [i]];
      } else {
        BackDone(g, a, ps, back, i);
      }
    }
  }

  lemma StateThere(a: Automaton, p: Place)
    requires InStates(a, p)
    ensures p.state < |a.configs|
  {}

  lemma NoneBack(g: Grammar, a: Automaton, ps: seq<Place>, back: seq<seq<nat>>)
    requires |back| == |ps| && forall k :: 0 <= k < |back| ==> back[k] == []
    ensures BackBy(g, a, ps, back, 0)
  {}

  lemma BackNext(g: Grammar, a: Automaton, ps: seq<Place>, back: seq<seq<nat>>, i: nat, k: nat)
    requires Lr0.NoDup(ps) && i < |ps| && k < |ps| && BackBy(g, a, ps, back, i)
    requires ConfigOk(g, ps[i].config) && ps[i].config.dot < |g.rules[ps[i].config.rule].rhs| && ps[i].state < |a.goto|
    requires g.rules[ps[i].config.rule].rhs[ps[i].config.dot] in a.goto[ps[i].state] && ps[k] == Moved(g, a, ps[i])
    ensures BackBy(g, a, ps, back[k := back[k] + [i]], i + 1)
  {
    var next := back[k := back[k] + [i]];
    forall j: nat, l: nat | j < |ps| && l < |ps| ensures j in next[l] <==> FromPlace(g, a, ps, i + 1, j, l) {
      assert ps[l] == ps[k] ==> l == k;
      assert j in back[l] <==> FromPlace(g, a, ps, i, j, l);
    }
  }

  lemma BackDone(g: Grammar, a: Automaton, ps: seq<Place>, back: seq<seq<nat>>, i: nat)
    requires i < |ps| && BackBy(g, a, ps, back, i)
    requires ConfigOk(g, ps[i].config) && ps[i].config.dot == |g.rules[ps[i].config.rule].rhs|
    ensures BackBy(g, a, ps, back, i + 1)
  {}

  /** After the back links of the first `n` places, and the first `m` of the next, are turned round. */
  ghost predicate Turned(links: seq<seq<nat>>, back: seq<seq<nat>>, now: seq<seq<nat>>, n: nat, m: nat) {
    |now| == |links| == |back| && Bounded(now, |links|) &&
    forall i: nat, k: nat :: i < |links| && k < |links| ==> (k in now[i] <==> TurnedOne(links, back, n, m, i, k))
  }

  ghost predicate TurnedOne(links: seq<seq<nat>>, back: seq<seq<nat>>, n: nat, m: nat, i: nat, k: nat)
    requires i < |links| == |back| && k < |back|
  {
    k in links[i] || (k < n && i in back[k]) || (k == n && m <= |back[k]| && i in back[k][..m])
  }

  /** `FindLinks`: every back link becomes a forward link. */
  method FindLinks(links: seq<seq<nat>>, back: seq<seq<nat>>) returns (now: seq<seq<nat>>)
    requires |links| == |back| && Bounded(links, |links|) && Bounded(back, |links|)
    ensures |now| == |links| && Bounded(now, |links|)
    ensures forall i: nat, k: nat ::
      0 <= i < |links| && 0 <= k < |links| ==> (k in now[i] <==> k in links[i] || i in back[k])
  {
    hide Bounded;
    now := links;
    for n := 0 to |back|
      invariant Turned(links, back, now, n, 0)
    {
      for m := 0 to |back[n]|
        invariant Turned(links, back, now, n, m)
      {
        var i := back[n][m];
        InBounds(back, |links|, n, i);
        TurnedNext(links, back, now, n, m);
        now := now[i := now[i] + [n]];
      }
      AllTurned(links, back, now, n);
    }
    forall i: nat, k: nat | i < |links| && k < |links| ensures k in now[i] <==> k in links[i] || i in back[k] {
      assert k in now[i] <==> TurnedOne(links, back, |back|, 0, i, k);
    }
  }

  lemma AllTurned(links: seq<seq<nat>>, back: seq<seq<nat>>, now: seq<seq<nat>>, n: nat)
    requires n < |back| && Turned(links, back, now, n, |back[n]|)
    ensures Turned(links, back, now, n + 1, 0)
  {
    assert back[n][..|back[n]|] == back[n];
    forall i: nat, k: nat | i < |links| && k < |links| ensures k in now[i] <==> TurnedOne(links, back, n + 1, 0, i, k) {
      assert k in now[i] <==> TurnedOne(links, back, n, |back[n]|, i, k);
    }
  }

  lemma InBounds(back: seq<seq<nat>>, size: nat, n: nat, i: nat)
    requires Bounded(back, size) && n < |back| && i in back[n]
    ensures i < size
  {}

  lemma TurnedNext(links: seq<seq<nat>>, back: seq<seq<nat>>, now: seq<seq<nat>>, n: nat, m: nat)
    requires Turned(links, back, now, n, m) && n < |back| && m < |back[n]| && back[n][m] < |links|
    ensures var i := back[n][m]; Turned(links, back, now[i := now[i] + [n]], n, m + 1)
  {
    var i := back[n][m];
    var next := now[i := now[i] + [n]];
    assert back[n][..m + 1] == back[n][..m] + [i];
    forall j: nat, k: nat | j < |links| && k < |links|
      ensures k in next[j] <==> TurnedOne(links, back, n, m + 1, j, k)
    {
      assert k in now[j] <==> TurnedOne(links, back, n, m, j, k);
    }
  }

  // ----- all together -----

  /** `FindStates` puts the end of the input behind the start rules of the first state. */
  method StartSeeds(g: Grammar, ps: seq<Place>) returns (seeds: seq<set<nat>>)
    ensures SeededBy(g, ps, seeds, 0, 0)
  {
    seeds := seq(|ps|, _ => {});
    for k := 0 to |ps|
      invariant |seeds| == |ps| && forall j, t: nat :: 0 <= j < k ==> (t in seeds[j] <==> AtEnd(g, ps[j], t))
      invariant forall j :: k <= j < |ps| ==> seeds[j] == {}
    {
      var p := ps[k];
      if p.state == 0 && p.config.dot == 0 && p.config.rule < |g.rules| && g.rules[p.config.rule].lhs == g.start {
        seeds := seeds[k := {0}];
      }
    }
  }

  /** The graph on which follow sets are propagated. */
  method Propagation(g: Grammar, states: seq<Lr0.State>, ps: seq<Place>, lambda: set<nat>, first: seq<set<nat>>)
    returns (f: FollowSets.Graph)
    requires g.Valid() && Lr0.Built(g, states) && AllPlaces(Lr0.AutomatonOf(states), ps) && SetsExact(g, lambda, first)
    ensures f.Valid() && SeedsExact(g, Lr0.AutomatonOf(states), ps, f.seeds)
    ensures LinksExact(g, Lr0.AutomatonOf(states), ps, f.links)
  {
    hide Lr0.Built, AllPlaces, Lr0.AutomatonOf, SetsExact, SeededBy, LinkedBy, BackBy, Bounded;
    var a := Lr0.AutomatonOf(states);
    Lr0.BuiltIsAutomaton(g, states);
    StatesClosed(g, states);
    var seeds := StartSeeds(g, ps);
    var links := seq(|ps|, _ => []);
    NoneLinked(g, ps, links);
    for n := 0 to |ps|
      invariant SeededBy(g, ps, seeds, n, 0) && LinkedBy(g, ps, links, n, 0)
    {
      seeds, links := ClosePlace(g, a, ps, lambda, first, seeds, links, n);
    }
    var back := BackLinks(g, states, ps);
    LinksBounded(g, a, ps, links, back);
    var now := FindLinks(links, back);
    f := FollowSets.Graph(seeds, now, g.nterm);
    GraphExact(g, a, ps, seeds, links, back, now);
  }

  lemma StatesClosed(g: Grammar, states: seq<Lr0.State>)
    requires Lr0.Built(g, states)
    ensures var a := Lr0.AutomatonOf(states); forall q :: 0 <= q < |a.configs| ==> Lr0.Closed(g, a.configs[q])
  {
    hide Lr0.Closed;
    var a := Lr0.AutomatonOf(states);
    forall q | 0 <= q < |a.configs| ensures Lr0.Closed(g, a.configs[q]) { assert Lr0.Shape(g, states, q); }
  }

  lemma NoneLinked(g: Grammar, ps: seq<Place>, links: seq<seq<nat>>)
    requires |links| == |ps| && forall k :: 0 <= k < |links| ==> links[k] == []
    ensures LinkedBy(g, ps, links, 0, 0)
  {}

  lemma LinksBounded(g: Grammar, a: Automaton, ps: seq<Place>, links: seq<seq<nat>>, back: seq<seq<nat>>)
    requires LinkedBy(g, ps, links, |ps|, 0) && BackBy(g, a, ps, back, |ps|)
    ensures |links| == |back| == |ps| && Bounded(links, |ps|) && Bounded(back, |ps|)
  {}

  lemma GraphExact(g: Grammar, a: Automaton, ps: seq<Place>, seeds: seq<set<nat>>, links: seq<seq<nat>>,
                   back: seq<seq<nat>>, now: seq<seq<nat>>)
    requires g.Valid() && AllPlaces(a, ps) && SeededBy(g, ps, seeds, |ps|, 0) && LinkedBy(g, ps, links, |ps|, 0)
    requires BackBy(g, a, ps, back, |ps|) && |links| == |now| == |ps| && Bounded(now, |ps|)
    requires forall i: nat, k: nat ::
      0 <= i < |ps| && 0 <= k < |ps| ==> (k in now[i] <==> k in links[i] || i in back[k])
    ensures SeedsExact(g, a, ps, seeds) && LinksExact(g, a, ps, now) && FollowSets.Graph(seeds, now, g.nterm).Valid()
  {
    hide Generates, PassesDown, PassesOn, AtEnd, InStates;
    forall k, t: nat | 0 <= k < |ps| ensures t in seeds[k] <==> Generated(g, a, ps[k], t) {
      assert t in seeds[k] <==> Seeded(g, ps, |ps|, 0, k, t);
      if p :| InStates(a, p) && Generates(g, p, ps[k], t) {
        assert p in ps;
      }
      if FromBelow(g, ps, |ps|, k, t) {
        var i :| 0 <= i < |ps| && Generates(g, ps[i], ps[k], t);
        assert ps[i] in ps;
      }
    }
    forall i: nat, k: nat | i < |ps| && k < |ps| ensures k in now[i] <==> Passes(g, a, ps[i], ps[k]) {
      assert i in back[k] <==> FromPlace(g, a, ps, |ps|, i, k);
      assert k in links[i] <==> Linked(g, ps, |ps|, 0, i, k);
    }
    forall k, t: nat | 0 <= k < |ps| && t in seeds[k] ensures t < g.nterm { GeneratedTerminal(g, a, ps[k], t); }
    forall i, k | 0 <= i < |ps| && 0 <= k < |now[i]| ensures now[i][k] < |seeds| { assert now[i][k] in now[i]; }
  }

  /**
   The follow sets of the generator: first sets, seeds and links, and the fixed point. A terminal is in the follow set
   of a configuration exactly when it is one of its lookaheads.
   */
  method FollowSetsOf(g: Grammar, states: seq<Lr0.State>) returns (ps: seq<Place>, sets: seq<set<nat>>)
    requires g.Valid() && Lr0.Built(g, states)
    ensures AllPlaces(Lr0.AutomatonOf(states), ps) && |sets| == |ps|
    ensures forall k, t: nat :: 0 <= k < |ps| ==> (t in sets[k] <==> Lookahead(g, Lr0.AutomatonOf(states), ps[k], t))
  {
    hide Lr0.Built, AllPlaces, Lr0.AutomatonOf, SeedsExact, LinksExact, Lookahead, FirstSets.Nullable, FirstSets.Begins,
         FollowSets.HoldsSeeds, FollowSets.Closed, FollowSets.BelowAll;
    var lambda, first := FirstSets.FindFirstSets(g);
    ps := Places(states, |states|);
    PlacesAreAll(g, states);
    var f := Propagation(g, states, ps, lambda, first);
    sets := FollowSets.FindFollowSets(f);
    FollowSetsAreLookaheads(g, Lr0.AutomatonOf(states), ps, f, sets);
    GraphSize(g, Lr0.AutomatonOf(states), ps, f);
  }

  lemma GraphSize(g: Grammar, a: Automaton, ps: seq<Place>, f: FollowSets.Graph)
    requires SeedsExact(g, a, ps, f.seeds)
    ensures |f.seeds| == |ps|
  {}
}
