/**
 Nothing is passed over that could have been used: the blocks and the runs of free lines that an allocation leaves
 behind were all too small for it, and after a collection only lines next to surviving objects are in use.
 */
module AllocationLaws {
  import opened ImmixBlock
  import opened ImmixHeap
  import opened HeapSafety

  // ----- first fit -----

  /** The lines from `f` up to `e` are free. */
  ghost predicate FreeRun(ls: LineMap, f: nat, e: nat) {
    f < e <= |ls| && forall k :: f <= k < e ==> !ls[k]
  }

  /** No run of free lines that begins between the two lines has room: its last line counts for one byte. */
  ghost predicate TooSmall(ls: LineMap, from: nat, upto: nat, size: nat) {
    forall f: nat, e: nat :: from <= f < upto && FreeRun(ls, f, e) ==> (e - f - 1) * LINE + 1 < size
  }

  /** Nothing between the cursor of `h` and the range had room for it. */
  ghost predicate FirstFit(h: Heap, h': Heap, r: Range)
    requires h.cur < |h.blocks|
  {
    r.block < |h'.blocks| && r.start % LINE == 0 &&
    if r.block == h.cur then TooSmall(h.blocks[h.cur].lines, h.line, r.start / LINE, r.size)
    else
      Place(h) <= r.block && TooSmall(h.blocks[h.cur].lines, h.line, LINES, r.size) &&
      (forall b :: Place(h) <= b < r.block && b < |h.blocks| ==> TooSmall(h.blocks[b].lines, 0, LINES, r.size)) &&
      TooSmall(h'.blocks[r.block].lines, 0, r.start / LINE, r.size)
  }

  lemma NoRun(ls: LineMap, from: nat, upto: nat, size: nat)
    requires forall k :: from <= k < upto && k < |ls| ==> ls[k]
    ensures TooSmall(ls, from, upto, size)
  {
    forall f: nat, e: nat | from <= f < upto && f < e <= |ls| ensures !FreeRun(ls, f, e) { assert ls[f]; }
  }

  /** Past a hole that is too small, and then too small ones only. */
  lemma Joined(ls: LineMap, from: nat, upto: nat, size: nat)
    requires from <= |ls| && FindHole(ls, from).Hole?
    requires var o := FindHole(ls, from);
      (o.end - o.first - 1) * LINE + 1 < size && TooSmall(ls, o.end, upto, size)
    ensures TooSmall(ls, from, upto, size)
  {
    var o := FindHole(ls, from);
    forall f: nat, e: nat | from <= f < o.first && f < e <= |ls| ensures !FreeRun(ls, f, e) { assert ls[f]; }
    forall f: nat, e: nat | f < o.end < e <= |ls| ensures !FreeRun(ls, f, e) { assert ls[o.end]; }
    forall f: nat, e: nat | from <= f < upto && FreeRun(ls, f, e) ensures (e - f - 1) * LINE + 1 < size {
      assert o.first <= f;
    }
  }

  /** The finder stands at the first run of free lines of the block, and the blocks passed over are full. */
  lemma BlockTaken(h: Heap)
    requires BlocksOk(h) && h.started
    ensures var h1 := GetNewBlock(h);
      HeapOk(h1) && Place(h) <= h1.cur && Place(h1) == h1.cur + 1 && h.blocks <= h1.blocks &&
      FindHole(h1.blocks[h1.cur].lines, 0) == Hole(h1.cursor / LINE, h1.line) && h1.cursor % LINE == 0 &&
      (forall b :: Place(h) <= b < h1.cur && b < |h.blocks| ==> Full(h.blocks[b])) &&
      (|h1.blocks| > |h.blocks| ==> |h.blocks| <= h1.cur && h1.cursor + LARGEST == h1.limit)
  {
    hide GetBlock, Fresh, BlockOk;
    GetBlockOk(h);
    NewBlockOk(h);
    var (h2, i) := GetBlock(h);
    assert BlockOk(h2.blocks[i]);
    assert GetNewBlock(h) == AtHole(h2, i, FindHole(h2.blocks[i].lines, 0));
  }

  /**
   At the cursor if there is room up to the limit. Otherwise in the first run of free lines that is large enough, in the
   rest of the current block and then block by block; and a chunk is added only if no block that is left has one.
   */
  ghost predicate Served(h: Heap, h': Heap, r: Range)
    requires h.cur < |h.blocks|
  {
    if h.cursor + r.size <= h.limit then h'.blocks == h.blocks && r == Range(h.cur, h.cursor, r.size)
    else FirstFit(h, h', r) && (|h'.blocks| > |h.blocks| ==> |h.blocks| <= r.block)
  }

  lemma InSameBlock(h: Heap, h': Heap, r: Range)
    requires HeapOk(h) && !Fits(h, r.size) && NextHole(h).Hole?
    requires var h1 := AtHole(h, h.cur, NextHole(h)); MovedOn(h1, h') && Ahead(h1, r) && Served(h1, h', r)
    ensures Served(h, h', r)
  {
    hide BlocksOk, TooSmall, FindHole;
    var h1 := AtHole(h, h.cur, NextHole(h));
    var ls := h.blocks[h.cur].lines;
    if Fits(h1, r.size) {
      NoRun(ls, h.line, NextHole(h).first, r.size);
    } else {
      Joined(ls, h.line, if r.block == h.cur then r.start / LINE else LINES, r.size);
    }
  }

  lemma InNextBlock(h: Heap, h': Heap, r: Range)
    requires HeapOk(h) && !Fits(h, r.size) && NextHole(h).None? && r.size <= LARGEST
    requires var h1 := GetNewBlock(h);
      HeapOk(h1) && h1.blocks <= h'.blocks && Ahead(h1, r) && Served(h1, h', r)
    ensures Served(h, h', r)
  {
    hide BlocksOk, TooSmall, FindHole, GetNewBlock;
    BlockTaken(h);
    var h1 := GetNewBlock(h);
    NoRun(h.blocks[h.cur].lines, h.line, LINES, r.size);
    forall b | Place(h) <= b < h1.cur && b < |h.blocks| ensures TooSmall(h.blocks[b].lines, 0, LINES, r.size) {
      NoRun(h.blocks[b].lines, 0, LINES, r.size);
    }
    var ls := h1.blocks[h1.cur].lines;
    if Fits(h1, r.size) {
      NoRun(ls, 0, h1.cursor / LINE, r.size);
    } else {
      Joined(ls, 0, if r.block == h1.cur then r.start / LINE else LINES, r.size);
    }
  }

  lemma {:induction false} AllocateFirstFit(h: Heap, size: nat)
    requires HeapOk(h) && size <= LARGEST
    ensures Allocate(h, size).1.size == size && Served(h, Allocate(h, size).0, Allocate(h, size).1)
    decreases |h.blocks| - Place(h), LINES - h.line
  {
    hide BlocksOk, GetNewBlock, FirstFit, NextHole;
    var (h', r) := Allocate(h, size);
    if Fits(h, size) {
    } else if NextHole(h).Hole? {
      NextHoleOk(h);
      var h1 := AtHole(h, h.cur, NextHole(h));
      AllocateFirstFit(h1, size);
      AllocateOk(h1, size);
      InSameBlock(h, h', r);
    } else {
      BlockTaken(h);
      PlaceBound(h);
      var h1 := GetNewBlock(h);
      PlaceBound(h1);
      if |h1.blocks| == |h.blocks| {
        AllocateFirstFit(h1, size);
        AllocateOk(h1, size);
      }
      InNextBlock(h, h', r);
    }
  }

  // ----- what a collection gives back -----

  /**
   The line is one the object keeps in use: what follows its header of 16 bytes touches it, or is no larger than a line
   and this is the next.
   */
  predicate Keeps(r: Range, b: nat, k: nat) {
    16 < r.size && r.block == b &&
    (Touches(r.start + 16, r.size - 16, k) || (r.size - 16 <= LINE && k == (r.start + 16) / LINE + 1))
  }

  ghost predicate KeptByOne(ranges: map<nat, Range>, visits: seq<nat>, b: nat, k: nat) {
    exists id :: id in visits && id in ranges && Keeps(ranges[id], b, k)
  }

  lemma {:induction false} MarkAllExact(blocks: seq<Block>, ranges: map<nat, Range>, visits: seq<nat>, b: nat, k: nat)
    requires (forall i :: 0 <= i < |blocks| ==> |blocks[i].lines| == LINES) && b < |blocks| && k < LINES
    requires forall id :: id in visits ==>
      id in ranges && HEADER < ranges[id].size && ranges[id].block < |blocks| &&
      ranges[id].start + ranges[id].size <= BLOCK
    ensures MarkAll(blocks, ranges, visits)[b].lines[k] <==>
      blocks[b].lines[k] || KeptByOne(ranges, visits, b, k)
    decreases |visits|
  {
    hide MarkAddress;
    if visits != [] {
      var n := |visits| - 1;
      var last := visits[n];
      var bs := MarkAll(blocks, ranges, visits[..n]);
      var p := Payload(ranges[last]);
      MarkAllExact(blocks, ranges, visits[..n], b, k);
      if p.block == b { MarkCovers(bs[b].lines, p.start, p.size, k); }
      assert forall id :: id in visits <==> id in visits[..n] || id == last;
    }
  }

  /**
   After a collection a line is in use exactly if it holds the header of its block or an object that was reached keeps
   it. Allocation goes on in the first free lines of the first block that is not full.
   */
  lemma CollectReclaims(w: World, visits: seq<nat>)
    requires Safe(w) && Enabled(w, Collect(visits))
    ensures BlocksOk(Swept(w.heap, w.ranges, visits))
    ensures var h := Step(w, Collect(visits)).heap;
      HeapOk(h) && |w.heap.blocks| <= |h.blocks| &&
      (forall b, k :: 0 <= b < |w.heap.blocks| && 0 <= k < LINES ==>
         (h.blocks[b].lines[k] <==> k == 0 || KeptByOne(w.ranges, visits, b, k))) &&
      (forall b :: 0 <= b < h.cur && b < |w.heap.blocks| ==> Full(h.blocks[b])) &&
      (forall k :: 0 <= k < h.cursor / LINE ==> h.blocks[h.cur].lines[k]) && h.cursor % LINE == 0
  {
    hide BlocksOk, GetNewBlock, FindHole, MarkAll, Inside, IsReach;
    SweptOk(w, visits);
    SweptStarted(w, visits);
    var h0 := Swept(w.heap, w.ranges, visits);
    BlockTaken(h0);
    forall b, k | 0 <= b < |h0.blocks| && 0 <= k < LINES
      ensures h0.blocks[b].lines[k] <==> k == 0 || KeptByOne(w.ranges, visits, b, k)
    {
      SweptExact(w, visits, b, k);
    }
  }

  lemma SweptExact(w: World, visits: seq<nat>, b: nat, k: nat)
    requires Safe(w) && Enabled(w, Collect(visits)) && b < |w.heap.blocks| && k < LINES
    ensures |Swept(w.heap, w.ranges, visits).blocks[b].lines| == LINES
    ensures Swept(w.heap, w.ranges, visits).blocks[b].lines[k] <==>
      k == 0 || KeptByOne(w.ranges, visits, b, k)
  {
    hide Keeps, IsReach;
    var live := set i | 0 <= i < |visits| :: visits[i];
    ReachIsKnown(w, live);
    forall id | id in visits
      ensures id in w.ranges && Inside(w.heap, w.ranges[id])
    {
      assert id in live;
      assert ObjectOk(w, id);
    }
    MarkAllExact(ClearAll(w.heap.blocks), w.ranges, visits, b, k);
  }

  // ----- what is counted -----

  predicate Begins(ls: LineMap, k: nat)
    requires k < |ls|
  {
    !ls[k] && (k == 0 || ls[k - 1])
  }

  /** The lines in use, and the lines that a run of free ones begins at. */
  lemma CountsMean(ls: LineMap, n: nat)
    requires n <= |ls|
    ensures CountUsed(ls, n) == |set k: nat | k < n && ls[k]|
    ensures CountHoles(ls, n) == |set k: nat | k < n && Begins(ls, k)|
  {
    UsedMeans(ls, n);
    HolesMean(ls, n);
  }

  lemma {:induction false} UsedMeans(ls: LineMap, n: nat)
    requires n <= |ls|
    ensures CountUsed(ls, n) == |set k: nat | k < n && ls[k]|
  {
    if n == 0 {
    } else {
      UsedMeans(ls, n - 1);
      var used, was := set k: nat | k < n && ls[k], set k: nat | k < n - 1 && ls[k];
      assert used == if ls[n - 1] then was + {n - 1} else was;
    }
  }

  lemma {:induction false} HolesMean(ls: LineMap, n: nat)
    requires n <= |ls|
    ensures CountHoles(ls, n) == |set k: nat | k < n && Begins(ls, k)|
  {
    if n == 0 {
    } else {
      HolesMean(ls, n - 1);
      OneMore(ls, n);
      var holes, was := set k: nat | k < n && Begins(ls, k), set k: nat | k < n - 1 && Begins(ls, k);
      assert holes == if Begins(ls, n - 1) then was + {n - 1} else was by { hide Begins; }
    }
  }

  lemma OneMore(ls: LineMap, n: nat)
    requires 0 < n <= |ls|
    ensures CountHoles(ls, n) == CountHoles(ls, n - 1) + if Begins(ls, n - 1) then 1 else 0
  {}
}
