/** The parser generator as one method: from a grammar to the arrays that are written out. */
module Lemon {
  import opened Grammars
  import opened LrDriver
  import opened LrActions
  import opened LrCompress
  import opened ActionTable
  import opened LrTables
  import opened LrGenerator
  import opened LrLookahead
  import opened LrAcceptance
  import opened LrOrder
  import opened MergeSort
  import Lr0

  /** An order of `n` states, the first staying first. */
  ghost predicate IsOrder(order: seq<nat>, n: nat) {
    |order| == n && (n > 0 ==> order[0] == 0) && (forall i :: 0 <= i < n ==> order[i] < n) && Lr0.NoDup(order) &&
    forall q :: 0 <= q < n ==> q in order
  }

  function PlaceIn(order: seq<nat>, q: nat): (i: nat)
    ensures q in order ==> i < |order| && order[i] == q
  {
    if order == [] then 0 else if order[0] == q then 0 else 1 + PlaceIn(order[1..], q)
  }

  function NumberIn(order: seq<nat>): nat -> nat { (q: nat) => PlaceIn(order, q) }

  lemma OrderReorders(u: Run)
    requires IsOrder(u.order, |u.states|) && u.num == NumberIn(u.order)
    ensures Reordered(u)
  {
    forall i | 0 <= i < |u.order| ensures u.num(u.order[i]) == i {
      var j := PlaceIn(u.order, u.order[i]);
      assert u.order[i] in u.order && u.order[j] == u.order[i];
    }
  }

  function Best(bests: seq<(nat, nat)>): nat -> (nat, nat) { (q: nat) => if q < |bests| then bests[q] else (0, 0) }

  /** The first `n` states have short lists and their defaults. */
  ghost predicate ListsOk(g: Grammar, u: Run, bests: seq<(nat, nat)>, n: nat) {
    |bests| == n <= |u.states| && forall q :: 0 <= q < n ==>
      |RawOf(g, u, q)| < Pow2(LISTSIZE) && MostFrequent(ResolvedOf(g, u, q), StartRule(g), bests[q].0, bests[q].1)
  }

  lemma SameLists(g: Grammar, u: Run, bests: seq<(nat, nat)>, order: seq<nat>)
    requires ListsOk(g, u, bests, |u.states|)
    ensures var v := u.(best := Best(bests), order := order, num := NumberIn(order));
      forall q :: 0 <= q < |v.states| ==> ListOk(g, v, q)
  {
    hide Finished, Drafts, Allocated, MostFrequent;
    var v := u.(best := Best(bests), order := order, num := NumberIn(order));
    forall q | 0 <= q < |v.states| ensures ListOk(g, v, q) {
      assert RawOf(g, v, q) == RawOf(g, u, q) && ResolvedOf(g, v, q) == ResolvedOf(g, u, q);
    }
  }

  /** The compressed lists in the order the states were made in. */
  function Unordered(g: Grammar, u: Run): (lists: seq<seq<Action>>)
    ensures |lists| == |u.states|
  {
    seq(|u.states|, q requires 0 <= q < |u.states| => PackedOf(g, u, q))
  }

  /** The list of every state is short enough to sort, and has a default; `false` if one is too long. */
  method FindDefaults(g: Grammar, u: Run) returns (bests: seq<(nat, nat)>, short: bool)
    ensures short ==> ListsOk(g, u, bests, |u.states|)
  {
    hide Finished, Drafts, Allocated, MostFrequent, RawOf, ResolvedOf;
    bests := [];
    for q := 0 to |u.states|
      invariant ListsOk(g, u, bests, q)
    {
      if |RawOf(g, u, q)| >= Pow2(LISTSIZE) { return [], false; }
      var n, r := FindBest(ResolvedOf(g, u, q), StartRule(g));
      bests := bests + [(n, r)];
    }
    short := true;
  }

  lemma ListsWritable(g: Grammar, u: Run)
    requires RunOk(g, u) && g.nsym < 0x7fff_ffff
    ensures Writable(SizesOf(g, u), u.num, Lists(g, u))
  {
    hide RunOk, Packable, PackedOf, OneEach;
    RunShape(g, u);
    forall i | 0 <= i < |u.order| ensures OneEach(PackedOf(g, u, u.order[i])) {
      PackedOk(g, u, u.order[i]);
      OneEachOf(g, u, u.order[i]);
    }
  }

  lemma OneEachOf(g: Grammar, u: Run, q: nat)
    requires q < |u.states|
    requires Packable(g, Lr0.AutomatonOf(u.states), q, u.fws(q), PackedOf(g, u, q))
    ensures OneEach(PackedOf(g, u, q))
  {}

  lemma ResortedIsOrder(z: Sizes, lists: seq<seq<Action>>)
    requires lists != []
    ensures IsOrder(Resort(z, lists), |lists|) && InOrder(z, lists, Resort(z, lists))
  {
    hide StateLess, Resort;
    ResortOk(z, lists);
    var order := Resort(z, lists);
    forall i | 0 <= i < |order| ensures order[i] < |lists| { assert order[i] in order; }
  }

  lemma StatesThere(g: Grammar, u: Run)
    requires Lr0.Built(g, u.states)
    ensures Unordered(g, u) != []
  {}

  lemma SameUnordered(g: Grammar, u: Run, order: seq<nat>)
    ensures var v := u.(order := order, num := NumberIn(order)); Unordered(g, v) == Unordered(g, u)
  {
    hide Finished, Drafts, Allocated, Compressed;
    var v := u.(order := order, num := NumberIn(order));
    forall q | 0 <= q < |u.states| ensures PackedOf(g, v, q) == PackedOf(g, u, q) {
      assert RawOf(g, v, q) == RawOf(g, u, q) && ResolvedOf(g, v, q) == ResolvedOf(g, u, q);
    }
  }

  /** A run of the generator on the grammar, up to the written arrays. */
  ghost predicate Outcome(g: Grammar, u: Run, t: Arrays, overrun: bool) {
    RunOk(g, u) && FollowOk(g, u) && InOrder(SizesOf(g, u), Unordered(g, u), u.order) &&
    Packs(SizesOf(g, u), u.num, Lists(g, u), PackOrder(SizesOf(g, u), u.num, Lists(g, u)), t, overrun)
  }

  /**
   The generator: states, follow sets, actions, defaults, renumbering and packing; `address` tells where actions lie in
   memory. `short` is false if a state has 2^30 actions, and nothing is said then. `done` tells whether every search of
   the action table succeeded; what is written then meets `GeneratedParserSound`.
   */
  method Generate(g: Grammar, prec: Precedence, address: nat -> nat -> int)
    returns (u: Run, t: Arrays, short: bool, overrun: bool, done: bool)
    requires g.Valid() && g.nsym < 0x7fff_ffff && |Lr0.AllConfigs(g)| < Pow2(LISTSIZE)
    requires forall q, i, j :: i != j ==> address(q)(i) != address(q)(j)
    ensures short ==> Outcome(g, u, t, overrun)
    ensures short ==>
      (done <==> Fits(RowsAt(SizesOf(g, u), u.num, Lists(g, u), PackOrder(SizesOf(g, u), u.num, Lists(g, u)))))
    ensures done ==> short && !overrun && AllPacked(SizesOf(g, u), u.num, t, Lists(g, u))
  {
    hide Lr0.Built, AllPlaces, Lookahead, Lr0.AutomatonOf, ListsOk, ListOk, IsOrder, Writable, Covering, AllPacked;
    hide Resort, InOrder, Packs, Fits, RowsAt, PackOrder, FollowOk;
    var builder := new Lr0.Builder(g);
    builder.Build();
    var states := builder.states;
    var ps, sets := FollowSetsOf(g, states);
    u := Run(states, FollowOf(ps, sets), prec, address, Best([]), [], NumberIn([]));
    var bests: seq<(nat, nat)>;
    bests, short := FindDefaults(g, u);
    if !short { return u, Arrays([], [], [], 0, [], 0, []), false, false, false; }
    var z, lists := SizesOf(g, u), Unordered(g, u.(best := Best(bests)));
    StatesThere(g, u.(best := Best(bests)));
    ResortedIsOrder(z, lists);
    SameLists(g, u, bests, Resort(z, lists));
    u := u.(best := Best(bests));
    SameUnordered(g, u, Resort(z, lists));
    u := u.(order := Resort(z, lists), num := NumberIn(Resort(z, lists)));
    OrderReorders(u);
    ComputedFollow(g, u, ps, sets);
    OrderFits(u);
    ListsWritable(g, u);
    PackOrderOk(z, u.num, Lists(g, u));
    t, overrun, done := WriteTables(z, u.num, Lists(g, u), PackOrder(z, u.num, Lists(g, u)));
  }
}
