/**
 Safety of the heap over whole runs: objects are allocated, references change, collections happen, in any
 order; no allocation ever returns memory of an object that was reachable at the last collection or was
 allocated since.
 */
module HeapSafety {
  import opened ImmixBlock
  import opened ImmixHeap

  /** Bytes of the header in front of every object. */
  const HEADER: nat := 16

  /** The whole range allocated for an object. What is marked is the part after the header. */
  function Payload(r: Range): Range
    requires r.size >= HEADER
  {
    Range(r.block, r.start + HEADER, r.size - HEADER)
  }

  /**
   The heap; the range of every object; the references between objects and from the roots; the objects found
   reachable by the last collection, and those allocated since.
   */
  datatype World = World(heap: Heap, ranges: map<nat, Range>, edges: map<nat, set<nat>>, roots: set<nat>,
                         live: set<nat>, young: set<nat>)

  function Known(w: World): set<nat> { w.live + w.young }

  datatype Action =
    | New(id: nat, bytes: nat)
    | Mutate(roots: set<nat>, edges: map<nat, set<nat>>)
    | Collect(visits: seq<nat>)

  // ----- reachability -----

  ghost predicate ClosedUnder(edges: map<nat, set<nat>>, s: set<nat>) {
    forall i :: i in s && i in edges ==> edges[i] <= s
  }

  /** The objects reachable from the roots: the least set that holds them and is closed under references. */
  ghost predicate IsReach(w: World, s: set<nat>) {
    w.roots <= s && ClosedUnder(w.edges, s) && forall t: set<nat> :: w.roots <= t && ClosedUnder(w.edges, t) ==> s <= t
  }

  // ----- the steps -----

  /** `GC::allocate`. */
  function AllocatedRange(w: World, bytes: nat): Range
    requires HeapOk(w.heap) && bytes + HEADER <= LARGEST
  {
    Allocate(w.heap, bytes + HEADER).1
  }

  /** `mark_object` of the collector: the lines of each object met are marked, block by block. */
  function MarkAll(blocks: seq<Block>, ranges: map<nat, Range>, visits: seq<nat>): (bs: seq<Block>)
    requires forall i :: 0 <= i < |blocks| ==> |blocks[i].lines| == LINES
    ensures |bs| == |blocks| && forall i :: 0 <= i < |bs| ==> |bs[i].lines| == LINES
    decreases |visits|
  {
    if visits == [] then blocks
    else
      var bs := MarkAll(blocks, ranges, visits[..|visits| - 1]);
      var id := visits[|visits| - 1];
      if id in ranges && ranges[id].size >= HEADER && ranges[id].block < |bs| && Payload(ranges[id]).start < BLOCK then
        var p := Payload(ranges[id]);
        bs[p.block := bs[p.block].(lines := MarkAddress(bs[p.block].lines, p.start, p.size))]
      else bs
  }

  function ClearAll(blocks: seq<Block>): (bs: seq<Block>)
    ensures |bs| == |blocks| && forall i :: 0 <= i < |bs| ==> bs[i] == blocks[i].(lines := Cleared())
  {
    seq(|blocks|, i requires 0 <= i < |blocks| => blocks[i].(lines := Cleared()))
  }

  function UpdateAll(blocks: seq<Block>): (bs: seq<Block>)
    requires forall i :: 0 <= i < |blocks| ==> |blocks[i].lines| == LINES
    ensures |bs| == |blocks| && forall i :: 0 <= i < |bs| ==> bs[i] == Updated(blocks[i])
  {
    seq(|blocks|, i requires 0 <= i < |blocks| => Updated(blocks[i]))
  }

  /** The heap when `collect` is about to take a new block: lines cleared and marked, statistics and cursors reset. */
  function Swept(h: Heap, ranges: map<nat, Range>, visits: seq<nat>): Heap {
    h.(blocks := UpdateAll(MarkAll(ClearAll(h.blocks), ranges, visits)), cc := 0, bc := 0)
  }

  /** An object with at least one byte, of a size the heap can hold; references only among known objects. */
  ghost predicate Enabled(w: World, a: Action) {
    match a
    case New(id, bytes) => id !in w.ranges && 1 <= bytes && bytes + HEADER <= LARGEST
    case Mutate(roots, edges) => roots <= Known(w) && ClosedUnder(edges, Known(w))
    case Collect(visits) => IsReach(w, set i | 0 <= i < |visits| :: visits[i])
  }

  function Step(w: World, a: Action): World
    requires HeapOk(w.heap) && Enabled(w, a) && BlocksOk(Swept(w.heap, w.ranges, if a.Collect? then a.visits else []))
  {
    match a
    case New(id, bytes) =>
      var (h, r) := Allocate(w.heap, bytes + HEADER);
      w.(heap := h, ranges := w.ranges[id := r], edges := w.edges[id := {}], young := w.young + {id})
    case Mutate(roots, edges) => w.(roots := roots, edges := edges)
    case Collect(visits) =>
      World(GetNewBlock(Swept(w.heap, w.ranges, visits)), w.ranges, w.edges, w.roots,
            set i | 0 <= i < |visits| :: visits[i], {})
  }

  // ----- the invariant -----

  /** An object's payload lies inside its block, past the header line. */
  ghost predicate Inside(h: Heap, r: Range) {
    HEADER < r.size && r.block < |h.blocks| && LINE <= r.start && r.start + r.size <= BLOCK
  }

  /** Every line the payload touches is marked. */
  ghost predicate Covered(h: Heap, r: Range)
    requires Inside(h, r) && |h.blocks[r.block].lines| == LINES
  {
    forall k :: 0 <= k < LINES && Touches(Payload(r).start, Payload(r).size, k) ==> h.blocks[r.block].lines[k]
  }

  ghost predicate ObjectOk(w: World, i: nat)
    requires HeapOk(w.heap)
  {
    i in w.ranges && Inside(w.heap, w.ranges[i]) && BlockOk(w.heap.blocks[w.ranges[i].block]) &&
    (i in w.live ==> Covered(w.heap, w.ranges[i])) && (i in w.young ==> Behind(w.heap, w.ranges[i]))
  }

  ghost predicate Safe(w: World) {
    HeapOk(w.heap) && (forall i :: i in Known(w) ==> ObjectOk(w, i)) && w.live !! w.young &&
    (forall i, j :: i in Known(w) && j in Known(w) && i != j ==> Apart(w, i, j)) &&
    w.roots <= Known(w) && ClosedUnder(w.edges, Known(w))
  }

  /** Two objects do not overlap, headers included. */
  ghost predicate Apart(w: World, i: nat, j: nat) {
    i in w.ranges && j in w.ranges && w.ranges[i].size > HEADER && w.ranges[j].size > HEADER &&
    Disjoint(w.ranges[i], w.ranges[j])
  }

  /**
   A range that keeps clear of lines in use misses every object whose lines are marked. The line of a header may be
   free, when the object starts in the first 16 bytes of the next line; but that one is marked, and a range that
   ends before it ends a line early.
   */
  lemma MarkedIsMissed(h: Heap, r: Range, s: Range)
    requires Inside(h, r) && |h.blocks[r.block].lines| == LINES && Covered(h, r) && ClearOfUsed(h, s) && s.size > 0
    ensures Disjoint(r, s)
  {
    if r.block == s.block && r.start < s.start + s.size && s.start < r.start + r.size {
      var p := Payload(r);
      var x := if s.start < p.start then p.start else s.start;
      assert Touches(p.start, p.size, x / LINE);
    }
  }

  /** The new range overlaps no known object. */
  lemma NewMisses(w: World, bytes: nat, i: nat)
    requires Safe(w) && bytes + HEADER <= LARGEST && i in Known(w)
    ensures Disjoint(w.ranges[i], AllocatedRange(w, bytes))
  {
    AllocateOk(w.heap, bytes + HEADER);
    var (h, r) := Allocate(w.heap, bytes + HEADER);
    assert ObjectOk(w, i);
    if i in w.young {
      AheadIsDisjoint(w.heap, w.ranges[i], r);
    } else {
      SameLines(w.heap, h, w.ranges[i]);
      MarkedIsMissed(h, w.ranges[i], r);
    }
  }

  lemma SameLines(h: Heap, h': Heap, r: Range)
    requires Inside(h, r) && |h.blocks[r.block].lines| == LINES && Covered(h, r) && h.blocks <= h'.blocks
    ensures Inside(h', r) && h'.blocks[r.block] == h.blocks[r.block] && Covered(h', r)
  {
    assert h'.blocks[r.block] == h.blocks[r.block];
  }

  lemma NewKeepsObject(w: World, id: nat, bytes: nat, i: nat)
    requires Safe(w) && Enabled(w, New(id, bytes)) && i in Known(w) && i != id
    ensures var (h, r) := Allocate(w.heap, bytes + HEADER);
      var w' := w.(heap := h, ranges := w.ranges[id := r], edges := w.edges[id := {}], young := w.young + {id});
      HeapOk(h) && ObjectOk(w', i)
  {
    hide Allocate;
    var (h, r) := Allocate(w.heap, bytes + HEADER);
    AllocateOk(w.heap, bytes + HEADER);
    assert ObjectOk(w, i);
    assert h.blocks[w.ranges[i].block] == w.heap.blocks[w.ranges[i].block];
    if i in w.live { SameLines(w.heap, h, w.ranges[i]); }
    if i in w.young { BehindStays(w.heap, h, w.ranges[i]); }
  }

  lemma NewSafe(w: World, id: nat, bytes: nat)
    requires Safe(w) && Enabled(w, New(id, bytes))
    ensures var (h, r) := Allocate(w.heap, bytes + HEADER);
      Safe(w.(heap := h, ranges := w.ranges[id := r], edges := w.edges[id := {}], young := w.young + {id}))
  {
    hide Allocate, ObjectOk, HeapOk;
    assert HeapOk(w.heap);
    var (h, r) := Allocate(w.heap, bytes + HEADER);
    var w' := w.(heap := h, ranges := w.ranges[id := r], edges := w.edges[id := {}], young := w.young + {id});
    AllocateOk(w.heap, bytes + HEADER);
    assert id !in Known(w) by { if id in Known(w) { KnownPlaced(w, id); } }
    forall i | i in Known(w') ensures ObjectOk(w', i) {
      if i == id { NewObjectOk(w', id); } else { NewKeepsObject(w, id, bytes, i); }
    }
    forall i, j | i in Known(w') && j in Known(w') && i != j ensures Apart(w', i, j) {
      if i != id && j != id {
        assert Apart(w, i, j);
      } else {
        var k := if i == id then j else i;
        KnownPlaced(w, k);
        NewMisses(w, bytes, k);
      }
    }
    forall i | i in Known(w') && i in w'.edges ensures w'.edges[i] <= Known(w') {
      if i != id { assert w.edges[i] <= Known(w); }
    }
  }

  lemma KnownPlaced(w: World, i: nat)
    requires Safe(w) && i in Known(w)
    ensures i in w.ranges && w.ranges[i].size > HEADER
  {
    assert ObjectOk(w, i);
  }

  lemma NewObjectOk(w: World, id: nat)
    requires HeapOk(w.heap) && id in w.ranges && w.ranges[id].size > HEADER && InFreeLines(w.heap, w.ranges[id])
    requires Behind(w.heap, w.ranges[id]) && id !in w.live
    ensures ObjectOk(w, id)
  {
    assert BlockOk(w.heap.blocks[w.ranges[id].block]);
  }

  // ----- collection -----

  lemma {:induction false} MarkAllKeeps(blocks: seq<Block>, ranges: map<nat, Range>, visits: seq<nat>, b: nat, k: nat)
    requires (forall i :: 0 <= i < |blocks| ==> |blocks[i].lines| == LINES) && b < |blocks| && k < LINES
    ensures blocks[b].lines[k] ==> MarkAll(blocks, ranges, visits)[b].lines[k]
    decreases |visits|
  {
    if visits != [] { MarkAllKeeps(blocks, ranges, visits[..|visits| - 1], b, k); }
  }

  /** Every line of every object met is marked in the end. */
  lemma {:induction false} MarkAllCovers(blocks: seq<Block>, ranges: map<nat, Range>, visits: seq<nat>, id: nat, k: nat)
    requires (forall i :: 0 <= i < |blocks| ==> |blocks[i].lines| == LINES) && k < LINES
    requires id in visits && id in ranges && HEADER < ranges[id].size && ranges[id].block < |blocks|
    requires LINE <= ranges[id].start && ranges[id].start + ranges[id].size <= BLOCK
    requires Touches(Payload(ranges[id]).start, Payload(ranges[id]).size, k)
    ensures MarkAll(blocks, ranges, visits)[ranges[id].block].lines[k]
    decreases |visits|
  {
    var n := |visits| - 1;
    var bs := MarkAll(blocks, ranges, visits[..n]);
    var p := Payload(ranges[id]);
    if visits[n] == id {
      MarkCovers(bs[p.block].lines, p.start, p.size, k);
    } else {
      MarkAllCovers(blocks, ranges, visits[..n], id, k);
    }
  }

  /** After the sweep the statistics fit the line maps again. */
  lemma SweptOk(w: World, visits: seq<nat>)
    requires HeapOk(w.heap)
    ensures BlocksOk(Swept(w.heap, w.ranges, visits))
  {
    var h := Swept(w.heap, w.ranges, visits);
    var bs := MarkAll(ClearAll(w.heap.blocks), w.ranges, visits);
    forall i | 0 <= i < |h.blocks| ensures BlockOk(h.blocks[i]) {
      MarkAllKeeps(ClearAll(w.heap.blocks), w.ranges, visits, i, 0);
      StatusMeans(bs[i]);
    }
  }

  lemma ReachIsKnown(w: World, s: set<nat>)
    requires Safe(w) && IsReach(w, s)
    ensures s <= Known(w)
  {}

  lemma CollectedObject(w: World, visits: seq<nat>, id: nat)
    requires Safe(w) && id in visits && id in Known(w)
    ensures var h := Swept(w.heap, w.ranges, visits);
      BlocksOk(h) && id in w.ranges && Inside(h, w.ranges[id]) && BlockOk(h.blocks[w.ranges[id].block]) &&
      Covered(h, w.ranges[id])
  {
    SweptOk(w, visits);
    assert ObjectOk(w, id);
    var h, r := Swept(w.heap, w.ranges, visits), w.ranges[id];
    forall k | 0 <= k < LINES && Touches(Payload(r).start, Payload(r).size, k) ensures h.blocks[r.block].lines[k] {
      MarkAllCovers(ClearAll(w.heap.blocks), w.ranges, visits, id, k);
    }
  }

  lemma CollectSafe(w: World, visits: seq<nat>)
    requires Safe(w) && Enabled(w, Collect(visits))
    ensures BlocksOk(Swept(w.heap, w.ranges, visits)) && Swept(w.heap, w.ranges, visits).started
    ensures var live := set i | 0 <= i < |visits| :: visits[i];
      Safe(World(GetNewBlock(Swept(w.heap, w.ranges, visits)), w.ranges, w.edges, w.roots, live, {}))
  {
    hide Swept, GetNewBlock, Covered, Inside;
    SweptOk(w, visits);
    SweptStarted(w, visits);
    var h := Swept(w.heap, w.ranges, visits);
    var live := set i | 0 <= i < |visits| :: visits[i];
    NewBlockOk(h);
    var h' := GetNewBlock(h);
    var w' := World(h', w.ranges, w.edges, w.roots, live, {});
    ReachIsKnown(w, live);
    forall i | i in Known(w') ensures ObjectOk(w', i) {
      CollectedObject(w, visits, i);
      SameLines(h, h', w.ranges[i]);
    }
    forall i, j | i in Known(w') && j in Known(w') && i != j ensures Apart(w', i, j) {
      assert Apart(w, i, j);
    }
  }

  lemma SweptStarted(w: World, visits: seq<nat>)
    requires HeapOk(w.heap)
    ensures Swept(w.heap, w.ranges, visits).started
  {}

  // ----- whole runs -----

  lemma StepSafe(w: World, a: Action)
    requires Safe(w) && Enabled(w, a)
    ensures BlocksOk(Swept(w.heap, w.ranges, if a.Collect? then a.visits else [])) && Safe(Step(w, a))
  {
    hide Swept, GetNewBlock, Allocate, ObjectOk, Apart;
    SweptOk(w, if a.Collect? then a.visits else []);
    match a
    case New(id, bytes) => NewSafe(w, id, bytes);
    case Mutate(roots, edges) => MutateSafe(w, roots, edges);
    case Collect(visits) => CollectSafe(w, visits);
  }

  lemma MutateSafe(w: World, roots: set<nat>, edges: map<nat, set<nat>>)
    requires Safe(w) && Enabled(w, Mutate(roots, edges))
    ensures Safe(w.(roots := roots, edges := edges))
  {
    hide Covered, Inside, Behind;
    var w' := w.(roots := roots, edges := edges);
    forall i | i in Known(w') ensures ObjectOk(w', i) { assert ObjectOk(w, i); }
    forall i, j | i in Known(w') && j in Known(w') && i != j ensures Apart(w', i, j) { assert Apart(w, i, j); }
  }

  /** `w'` is reached from `w` by the actions, each of which was possible. */
  ghost predicate Runs(w: World, acts: seq<Action>, w': World)
    requires Safe(w)
    decreases |acts|
  {
    if acts == [] then w' == w
    else Enabled(w, acts[0]) && (StepSafe(w, acts[0]); Runs(Step(w, acts[0]), acts[1..], w'))
  }

  /** The heap before the first allocation. */
  function Initial(): World
    ensures Safe(Initial())
  {
    var h := Heap([], false, 0, 0, 0, 0, 0, 0);
    NewBlockOk(h);
    World(GetNewBlock(h), map[], map[], {}, {}, {})
  }

  lemma {:induction false} RunsSafe(w: World, acts: seq<Action>, w': World)
    requires Safe(w) && Runs(w, acts, w')
    ensures Safe(w')
    decreases |acts|
  {
    if acts != [] {
      StepSafe(w, acts[0]);
      RunsSafe(Step(w, acts[0]), acts[1..], w');
    }
  }

  /**
   In any sequence of allocations, changes of references and collections, no allocation returns a range that overlaps
   an object reachable at the last collection, or allocated since; and no two such objects overlap. The ranges are
   whole: they include the headers, where sizes and marks are kept.
   */
  lemma AllocationsAreSafe(acts: seq<Action>, w: World, bytes: nat, i: nat)
    requires Runs(Initial(), acts, w) && bytes + HEADER <= LARGEST && i in Known(w)
    ensures Safe(w) && i in w.ranges && Disjoint(w.ranges[i], AllocatedRange(w, bytes))
    ensures forall j :: j in Known(w) && j != i ==> Apart(w, i, j)
  {
    RunsSafe(Initial(), acts, w);
    KnownPlaced(w, i);
    NewMisses(w, bytes, i);
  }

  /** Ranges in different blocks, or apart in one, are at different addresses: blocks are aligned and apart. */
  lemma AddressesApart(base: nat -> nat, r: Range, s: Range, x: nat)
    requires forall i, j :: i != j ==> base(i) + BLOCK <= base(j) || base(j) + BLOCK <= base(i)
    requires Disjoint(r, s) && r.start + r.size <= BLOCK && s.start + s.size <= BLOCK
    ensures !(base(r.block) + r.start <= x < base(r.block) + r.start + r.size &&
              base(s.block) + s.start <= x < base(s.block) + s.start + s.size)
  {
    if r.block != s.block {
      assert base(r.block) + BLOCK <= base(s.block) || base(s.block) + BLOCK <= base(r.block);
    }
  }
}
