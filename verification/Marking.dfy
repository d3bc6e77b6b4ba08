/**
 The mark phase: a mark stack, and marks that alternate from collection to collection. Each reachable object is
 pushed once and ends marked, and no known object enters a collection already carrying its mark.
 */
module Marking {
  import HeapSafety

  function Elems(xs: seq<nat>): set<nat> { set i | 0 <= i < |xs| :: xs[i] }

  ghost predicate NoDup(xs: seq<nat>) { forall i, j :: 0 <= i < j < |xs| ==> xs[i] != xs[j] }

  /** The objects in the order the collector meets their references, and the references of each. */
  datatype Graph = Graph(roots: seq<nat>, kids: nat -> seq<nat>)

  /** The graph lists the references of the world. */
  ghost predicate Lists(g: Graph, w: HeapSafety.World) {
    Elems(g.roots) == w.roots && forall i :: i in HeapSafety.Known(w) ==>
      Elems(g.kids(i)) == if i in w.edges then w.edges[i] else {}
  }

  /** Inside every set that holds the roots and is closed under references. */
  ghost predicate Needed(g: Graph, s: set<nat>) {
    forall t: set<nat> :: Elems(g.roots) <= t && ClosedFor(g, t) ==> s <= t
  }

  ghost predicate ClosedFor(g: Graph, t: set<nat>) { forall i :: i in t ==> Elems(g.kids(i)) <= t }

  lemma Appended(xs: seq<nat>, x: nat)
    ensures Elems(xs + [x]) == Elems(xs) + {x}
  {
    var ys := xs + [x];
    forall y | y in Elems(xs) + {x} ensures y in Elems(ys) {
      if y in Elems(xs) {
        var i :| 0 <= i < |xs| && xs[i] == y;
        assert ys[i] == y;
      } else {
        assert ys[|xs|] == y;
      }
    }
  }

  lemma {:induction false} Smaller<T>(a: set<T>, b: set<T>)
    requires a <= b
    ensures |a| <= |b|
    decreases a
  {
    if x :| x in a { Smaller(a - {x}, b - {x}); }
  }

  /** The other of the two marks. */
  function Other(mark: nat): nat { if mark == 1 then 2 else 1 }

  /**
   The collector's marks. `known` are the objects the program can still refer to; every other object's memory may be
   in use for something else already.
   */
  class Collector {
    var mark: nat
    var flags: map<nat, nat>
    var stack: seq<nat>
    ghost var known: set<nat>
    ghost var pushed: seq<nat>
    ghost var visits: seq<nat>

    /** Between collections: no known object carries the mark of the next collection. */
    ghost predicate Valid()
      reads this
    {
      mark in {1, 2} && stack == [] && forall i :: i in known ==> i in flags && flags[i] in {0, Other(mark)}
    }

    /** During a collection: what is marked is what was pushed and what was visited, and all of it is needed. */
    ghost predicate Tracing(g: Graph)
      reads this
    {
      mark in {1, 2} && known <= flags.Keys && NoDup(pushed) && Elems(stack) <= Elems(pushed) && NoDup(stack) &&
      Elems(pushed) <= known && Elems(visits) == Elems(pushed) && Needed(g, Elems(pushed)) &&
      (forall i :: i in known ==> (flags[i] == mark <==> i in Elems(pushed))) &&
      forall i :: i in known && flags[i] != mark ==> flags[i] in {0, Other(mark)}
    }

    /** Everything pushed is still on the stack, or is `current`, or has had its references visited. */
    ghost predicate Scanned(g: Graph, current: set<nat>)
      reads this
    {
      forall i :: i in Elems(pushed) && i !in Elems(stack) && i !in current ==> Elems(g.kids(i)) <= Elems(pushed)
    }

    constructor ()
      ensures Valid() && known == {}
    {
      mark, flags, stack, known, pushed, visits := 1, map[], [], {}, [], [];
    }

    /** A new object's flags are clear. */
    method Allocate(id: nat)
      requires Valid() && id !in known
      modifies this
      ensures Valid() && known == old(known) + {id}
    {
      flags := flags[id := 0];
      known := known + {id};
    }

    /** `mark_object`: met again, an object is not pushed again. */
    method MarkObject(id: nat, ghost g: Graph, ghost current: set<nat>)
      requires Tracing(g) && Scanned(g, current) && id in known && Needed(g, {id})
      modifies this
      ensures Tracing(g) && Scanned(g, current) && known == old(known) && mark == old(mark)
      ensures id in Elems(pushed) && old(Elems(pushed)) <= Elems(pushed) && visits == old(visits) + [id]
      ensures if id in old(Elems(pushed)) then stack == old(stack) && pushed == old(pushed)
              else stack == old(stack) + [id] && pushed == old(pushed) + [id]
    {
      Appended(visits, id);
      visits := visits + [id];
      if flags[id] == mark { return; }
      Appended(stack, id);
      Appended(pushed, id);
      PushedNew(pushed, id);
      PushedNew(stack, id);
      stack := stack + [id];
      pushed := pushed + [id];
      flags := flags[id := mark];
    }

    /** The objects of a list are marked one after the other. */
    method MarkList(ids: seq<nat>, ghost g: Graph, ghost current: set<nat>)
      requires Tracing(g) && Scanned(g, current) && Elems(ids) <= known && Needed(g, Elems(ids))
      modifies this
      ensures Tracing(g) && Scanned(g, current) && known == old(known) && mark == old(mark)
      ensures Elems(ids) <= Elems(pushed) && old(Elems(pushed)) <= Elems(pushed)
      ensures |pushed| - |stack| == old(|pushed| - |stack|) && |pushed| >= old(|pushed|)
    {
      for k := 0 to |ids|
        invariant Tracing(g) && Scanned(g, current) && known == old(known) && mark == old(mark)
        invariant Elems(ids[..k]) <= Elems(pushed) && old(Elems(pushed)) <= Elems(pushed)
        invariant |pushed| - |stack| == old(|pushed| - |stack|) && |pushed| >= old(|pushed|)
      {
        assert ids[k] in Elems(ids);
        Appended(ids[..k], ids[k]);
        assert ids[..k + 1] == ids[..k] + [ids[k]];
        MarkObject(ids[k], g, current);
      }
      assert ids[..|ids|] == ids;
    }

    /** One turn of `process_mark_stack`: the last object's references are visited. */
    method ScanLast(ghost w: HeapSafety.World, g: Graph)
      requires Tracing(g) && Scanned(g, {}) && stack != [] && HeapSafety.Safe(w) && known == HeapSafety.Known(w)
      requires Lists(g, w)
      modifies this
      ensures Tracing(g) && Scanned(g, {}) && known == old(known) && mark == old(mark)
      ensures old(Elems(pushed)) <= Elems(pushed) && |pushed| >= old(|pushed|)
      ensures |pushed| - |stack| == old(|pushed| - |stack|) + 1
    {
      hide HeapSafety.Safe, HeapSafety.Known, Lists, Needed;
      var n := |stack| - 1;
      var id := stack[n];
      Popped(stack);
      assert id in Elems(stack);
      KidsNeeded(g, Elems(pushed), id);
      KidsKnown(w, g, id);
      stack := stack[..n];
      MarkList(g.kids(id), g, {id});
    }

    /** `process_mark_stack`. */
    method ProcessStack(ghost w: HeapSafety.World, g: Graph)
      requires Tracing(g) && Scanned(g, {}) && HeapSafety.Safe(w) && known == HeapSafety.Known(w) && Lists(g, w)
      modifies this
      ensures Tracing(g) && Scanned(g, {}) && stack == [] && known == old(known) && mark == old(mark)
      ensures old(Elems(pushed)) <= Elems(pushed)
    {
      hide HeapSafety.Safe, HeapSafety.Known, Lists, Needed, Elems;
      while stack != []
        invariant Tracing(g) && Scanned(g, {}) && known == old(known) && mark == old(mark)
        invariant old(Elems(pushed)) <= Elems(pushed)
        decreases |known| - |pushed|, |stack|
      {
        PushedFits(pushed, known);
        ScanLast(w, g);
        PushedFits(pushed, known);
      }
    }

    /**
     The mark phase of `collect`. It ends; each reachable object is pushed exactly once and is marked, no other is;
     the objects visited are exactly the reachable ones; and afterwards no known object carries the next mark.
     */
    method Collect(ghost w: HeapSafety.World, g: Graph)
      requires Valid() && HeapSafety.Safe(w) && known == HeapSafety.Known(w) && Lists(g, w)
      modifies this
      ensures Valid() && mark == Other(old(mark)) && NoDup(pushed) && known == Elems(pushed) == Elems(visits)
      ensures HeapSafety.IsReach(w, known) && HeapSafety.Enabled(w, HeapSafety.Collect(visits))
      ensures forall i :: i in old(known) ==> i in flags && (flags[i] == old(mark) <==> i in known)
    {
      hide HeapSafety.Safe, HeapSafety.IsReach, HeapSafety.Enabled, Lists, Needed;
      pushed, visits := [], [];
      RootsNeeded(g);
      RootsKnown(w, g);
      MarkList(g.roots, g, {});
      ProcessStack(w, g);
      ReachedAll(w, g, Elems(pushed), visits);
      known := Elems(pushed);
      mark := Other(mark);
    }
  }

  lemma RootsKnown(w: HeapSafety.World, g: Graph)
    requires HeapSafety.Safe(w) && Lists(g, w)
    ensures Elems(g.roots) <= HeapSafety.Known(w)
  {}

  lemma PushedNew(xs: seq<nat>, x: nat)
    requires NoDup(xs) && x !in Elems(xs)
    ensures NoDup(xs + [x])
  {
    forall i | 0 <= i < |xs| ensures xs[i] != x { assert xs[i] in Elems(xs); }
  }

  lemma {:induction false} Cardinal(xs: seq<nat>)
    requires NoDup(xs)
    ensures |Elems(xs)| == |xs|
  {
    if xs != [] {
      var n := |xs| - 1;
      Cardinal(xs[..n]);
      Appended(xs[..n], xs[n]);
      assert xs == xs[..n] + [xs[n]];
      forall i | 0 <= i < n ensures xs[i] != xs[n] {}
    }
  }

  lemma PushedFits(xs: seq<nat>, all: set<nat>)
    requires NoDup(xs) && Elems(xs) <= all
    ensures |xs| <= |all|
  {
    Cardinal(xs);
    Smaller(Elems(xs), all);
  }

  lemma Popped(xs: seq<nat>)
    requires NoDup(xs) && xs != []
    ensures var n := |xs| - 1; Elems(xs) == Elems(xs[..n]) + {xs[n]} && NoDup(xs[..n])
  {
    var n := |xs| - 1;
    Appended(xs[..n], xs[n]);
    assert xs == xs[..n] + [xs[n]];
  }

  lemma RootsNeeded(g: Graph)
    ensures Needed(g, Elems(g.roots)) && Needed(g, {}) && Elems([]) == {}
  {}

  lemma KidsNeeded(g: Graph, s: set<nat>, id: nat)
    requires Needed(g, s) && id in s
    ensures Needed(g, Elems(g.kids(id)))
  {
    forall t: set<nat> | Elems(g.roots) <= t && ClosedFor(g, t) ensures Elems(g.kids(id)) <= t {
      assert s <= t;
    }
  }

  lemma KidsKnown(w: HeapSafety.World, g: Graph, id: nat)
    requires HeapSafety.Safe(w) && Lists(g, w) && id in HeapSafety.Known(w)
    ensures Elems(g.kids(id)) <= HeapSafety.Known(w)
  {}

  lemma ReachedAll(w: HeapSafety.World, g: Graph, s: set<nat>, visits: seq<nat>)
    requires HeapSafety.Safe(w) && Lists(g, w) && s <= HeapSafety.Known(w) && Needed(g, s) && Elems(visits) == s
    requires Elems(g.roots) <= s && forall i :: i in s ==> Elems(g.kids(i)) <= s
    ensures HeapSafety.IsReach(w, s) && HeapSafety.Enabled(w, HeapSafety.Collect(visits))
  {
    assert (set i | 0 <= i < |visits| :: visits[i]) == s;
    forall t: set<nat> | w.roots <= t && HeapSafety.ClosedUnder(w.edges, t) ensures s <= t {
      var u := t * HeapSafety.Known(w);
      assert ClosedFor(g, u);
    }
  }
}
