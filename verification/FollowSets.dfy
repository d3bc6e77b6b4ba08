/**
 Propagation of follow sets along links between configurations. Configurations that are marked complete are
 skipped, yet the loop ends with the least sets that hold the seeds and are closed under every link.
 */
module FollowSets {
  import FirstSets

  /** Configurations are numbered; `links[i]` are those that get what `i` has. */
  datatype Graph = Graph(seeds: seq<set<nat>>, links: seq<seq<nat>>, terminals: nat)
  {
    ghost predicate Valid() {
      |links| == |seeds| && (forall i, k :: 0 <= i < |links| && 0 <= k < |links[i]| ==> links[i][k] < |seeds|) &&
      forall i, x :: 0 <= i < |seeds| && x in seeds[i] ==> x < terminals
    }
  }

  ghost predicate HoldsSeeds(g: Graph, sets: seq<set<nat>>) {
    |sets| == |g.seeds| && forall i :: 0 <= i < |g.seeds| ==> g.seeds[i] <= sets[i]
  }

  /** The first `n` links of configuration `i` are served. */
  ghost predicate Served(g: Graph, sets: seq<set<nat>>, i: nat, n: nat)
    requires g.Valid() && |sets| == |g.seeds| && i < |g.links| && n <= |g.links[i]|
  {
    forall k :: 0 <= k < n ==> sets[i] <= sets[g.links[i][k]]
  }

  ghost predicate Closed(g: Graph, sets: seq<set<nat>>)
    requires g.Valid() && |sets| == |g.seeds|
  {
    forall i :: 0 <= i < |g.links| ==> Served(g, sets, i, |g.links[i]|)
  }

  /** Within every solution. */
  ghost predicate BelowAll(g: Graph, sets: seq<set<nat>>)
    requires g.Valid() && |sets| == |g.seeds|
  {
    forall xs: seq<set<nat>> :: HoldsSeeds(g, xs) && Closed(g, xs) ==> Below(sets, xs)
  }

  ghost predicate Below(sets: seq<set<nat>>, xs: seq<set<nat>>) {
    |sets| == |xs| && forall i :: 0 <= i < |sets| ==> sets[i] <= xs[i]
  }

  ghost predicate Terminals(g: Graph, sets: seq<set<nat>>) {
    forall i, x :: 0 <= i < |sets| && x in sets[i] ==> x < g.terminals
  }

  /** The sets so far. */
  ghost predicate Partial(g: Graph, sets: seq<set<nat>>) {
    g.Valid() && HoldsSeeds(g, sets) && BelowAll(g, sets) && Terminals(g, sets)
  }

  lemma Start(g: Graph)
    requires g.Valid()
    ensures Partial(g, g.seeds)
  {}

  /** One link is followed: the target gets what the source has. */
  lemma Followed(g: Graph, sets: seq<set<nat>>, i: nat, k: nat)
    requires Partial(g, sets) && i < |g.links| && k < |g.links[i]|
    ensures var j := g.links[i][k];
      var sets' := sets[j := sets[j] + sets[i]];
      Partial(g, sets') && FirstSets.Total(sets') >= FirstSets.Total(sets) &&
      (sets' != sets ==> FirstSets.Total(sets') > FirstSets.Total(sets))
  {
    var j := g.links[i][k];
    var sets' := sets[j := sets[j] + sets[i]];
    FirstSets.TotalGrows(sets, j, sets[j] + sets[i]);
    forall xs: seq<set<nat>> | HoldsSeeds(g, xs) && Closed(g, xs) ensures Below(sets', xs) {
      assert Below(sets, xs) && Served(g, xs, i, |g.links[i]|);
    }
  }

  lemma Bounded(g: Graph, sets: seq<set<nat>>)
    requires Partial(g, sets)
    ensures FirstSets.Total(sets) <= |g.seeds| * g.terminals
  {
    FirstSets.TotalBound(sets, g.terminals);
  }

  /** Served links stay served when another configuration's set grows. */
  lemma StillServed(g: Graph, sets: seq<set<nat>>, i: nat, n: nat, j: nat, b: set<nat>)
    requires g.Valid() && |sets| == |g.seeds| && i < |g.links| && n <= |g.links[i]| && Served(g, sets, i, n)
    requires j < |sets| && j != i && sets[j] <= b
    ensures Served(g, sets[j := b], i, n)
  {
    var sets' := sets[j := b];
    forall k | 0 <= k < n ensures sets'[i] <= sets'[g.links[i][k]] {
      assert sets[i] <= sets[g.links[i][k]];
    }
  }

  /** All configurations marked complete are served. */
  ghost predicate Marked(g: Graph, sets: seq<set<nat>>, complete: seq<bool>)
    requires g.Valid() && |sets| == |g.seeds| == |complete|
  {
    forall i :: 0 <= i < |complete| && complete[i] ==> Served(g, sets, i, |g.links[i]|)
  }

  /** The links of one configuration: every target whose set changes is marked incomplete. */
  method FollowLinks(g: Graph, sets: seq<set<nat>>, complete: seq<bool>, i: nat)
    returns (sets': seq<set<nat>>, complete': seq<bool>, change: bool)
    requires Partial(g, sets) && |complete| == |sets| && i < |sets| && !complete[i] && Marked(g, sets, complete)
    ensures Partial(g, sets') && |complete'| == |sets'| && Marked(g, sets', complete') && complete'[i]
    ensures if change then FirstSets.Total(sets') > FirstSets.Total(sets) else sets' == sets
    ensures !change ==> complete' == complete[i := true]
  {
    hide Partial, FirstSets.Total, Served;
    PartialSize(g, sets);
    sets', complete', change := sets, complete, false;
    NoLinks(g, sets, i);
    for k := 0 to |g.links[i]|
      invariant Partial(g, sets') && |complete'| == |sets'| == |sets| && !complete'[i] && sets'[i] == sets[i]
      invariant Marked(g, sets', complete') && Served(g, sets', i, k)
      invariant if change then FirstSets.Total(sets') > FirstSets.Total(sets)
                else sets' == sets && complete' == complete
    {
      var j := g.links[i][k];
      Followed(g, sets', i, k);
      var b := sets'[j] + sets'[i];
      OneMoreServed(g, sets', i, k);
      if !(sets'[i] <= sets'[j]) {
        forall l | 0 <= l < |complete'| && complete'[l] && l != j
          ensures Served(g, sets'[j := b], l, |g.links[l]|)
        {
          StillServed(g, sets', l, |g.links[l]|, j, b);
        }
        sets' := sets'[j := b];
        complete' := complete'[j := false];
        change := true;
      } else {
        assert b == sets'[j];
        assert sets'[j := b] == sets';
      }
    }
    complete' := complete'[i := true];
  }

  lemma PartialSize(g: Graph, sets: seq<set<nat>>)
    requires Partial(g, sets)
    ensures g.Valid() && |sets| == |g.seeds|
  {}

  lemma NoLinks(g: Graph, sets: seq<set<nat>>, i: nat)
    requires g.Valid() && |sets| == |g.seeds| && i < |g.links|
    ensures Served(g, sets, i, 0)
  {}

  lemma OneMoreServed(g: Graph, sets: seq<set<nat>>, i: nat, k: nat)
    requires g.Valid() && |sets| == |g.seeds| && i < |g.links| && k < |g.links[i]| && Served(g, sets, i, k)
    ensures var j := g.links[i][k]; Served(g, sets[j := sets[j] + sets[i]], i, k + 1)
    ensures sets[i] <= sets[g.links[i][k]] ==> Served(g, sets, i, k + 1)
  {
    var j := g.links[i][k];
    var sets' := sets[j := sets[j] + sets[i]];
    forall l | 0 <= l < k + 1 ensures sets'[i] <= sets'[g.links[i][l]] {
      if l < k { assert sets[i] <= sets[g.links[i][l]]; }
    }
  }

  /**
   `FindFollowSets`: it ends, with the least sets that hold the seeds and are closed under all links.
   */
  method FindFollowSets(g: Graph) returns (sets: seq<set<nat>>)
    requires g.Valid()
    ensures |sets| == |g.seeds| && HoldsSeeds(g, sets) && Closed(g, sets) && BelowAll(g, sets)
  {
    sets := g.seeds;
    var complete := seq(|g.seeds|, _ => false);
    Start(g);
    var progress := true;
    while progress
      invariant Partial(g, sets) && |complete| == |sets| && Marked(g, sets, complete)
      invariant !progress ==> forall i :: 0 <= i < |complete| ==> complete[i]
      decreases |g.seeds| * g.terminals - FirstSets.Total(sets), progress
    {
      hide FirstSets.Total, BelowAll, Terminals, Marked, HoldsSeeds;
      Bounded(g, sets);
      progress := false;
      ghost var before := sets;
      for i := 0 to |sets|
        invariant Partial(g, sets) && |complete| == |sets| == |before| && Marked(g, sets, complete)
        invariant if progress then FirstSets.Total(sets) > FirstSets.Total(before)
                  else sets == before && forall j :: 0 <= j < i ==> complete[j]
      {
        if !complete[i] {
          var change: bool;
          PartialSize(g, sets);
          sets, complete, change := FollowLinks(g, sets, complete, i);
          PartialSize(g, sets);
          progress := progress || change;
        }
      }
      Bounded(g, sets);
    }
  }
}
