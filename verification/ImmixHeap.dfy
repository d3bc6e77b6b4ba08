/**
 Blocks, chunks and the bump allocator. Every allocation the blocks can hold at all succeeds, adding one
 chunk at most, and lies in free lines that nothing was allocated in since the last collection.
 */
module ImmixHeap {
  import opened ImmixBlock

  const PER_CHUNK: nat := 320

  /** The largest request a free block can serve: its last line counts for one byte. */
  const LARGEST: nat := 254 * 128 + 1

  /**
   The blocks of all chunks, chunk after chunk; the block allocator's place (`cc`, `bc`); and the hole finder: the
   block it is in, where the next allocation goes, the end of the hole, and the line where its search goes on.
   */
  datatype Heap = Heap(blocks: seq<Block>, started: bool, cc: nat, bc: nat, cur: nat, cursor: nat, limit: int,
                       line: nat)

  /** A block and a range of bytes in it. */
  datatype Range = Range(block: nat, start: nat, size: nat)

  const Fresh := Block(Cleared(), Free, 1, 1)

  function FreshChunk(): (bs: seq<Block>)
    ensures |bs| == PER_CHUNK && forall i :: 0 <= i < PER_CHUNK ==> bs[i] == Fresh
  {
    seq(PER_CHUNK, _ => Fresh)
  }

  function Chunks(h: Heap): nat { |h.blocks| / PER_CHUNK }

  /** The block allocator's place, counted through all chunks: blocks below it were handed out or passed over. */
  function Place(h: Heap): nat { h.cc * PER_CHUNK + h.bc }

  /** The statistics are up to date: a block counts as usable exactly when a line is free. */
  ghost predicate BlockOk(b: Block) {
    |b.lines| == LINES && b.lines[0] && (Usable(b) <==> exists k :: 0 <= k < LINES && !b.lines[k])
  }

  ghost predicate Full(b: Block) { forall k :: 0 <= k < |b.lines| ==> b.lines[k] }

  ghost predicate BlocksOk(h: Heap) {
    |h.blocks| == Chunks(h) * PER_CHUNK && (forall i :: 0 <= i < |h.blocks| ==> BlockOk(h.blocks[i])) &&
    if h.started then h.cc < Chunks(h) && h.bc <= PER_CHUNK else h.blocks == []
  }

  /** `add_chunk`. */
  function AddChunk(h: Heap): Heap {
    h.(blocks := h.blocks + FreshChunk(), started := true, cc := Chunks(h), bc := 1)
  }

  lemma AddChunkOk(h: Heap)
    requires BlocksOk(h)
    ensures var h' := AddChunk(h);
      BlocksOk(h') && Chunks(h') == Chunks(h) + 1 && Place(h') == |h.blocks| + 1 &&
      (|h'.blocks| - |h.blocks|) * BLOCK == 10 * 1024 * 1024 &&
      forall i :: |h.blocks| <= i < |h'.blocks| ==> h'.blocks[i] == Fresh
  {
    var h' := AddChunk(h);
    assert |h'.blocks| == (Chunks(h) + 1) * PER_CHUNK;
    FreshOk();
    forall i | 0 <= i < |h'.blocks| ensures BlockOk(h'.blocks[i]) {
      if i >= |h.blocks| { assert h'.blocks[i] == FreshChunk()[i - |h.blocks|]; }
    }
  }

  lemma FreshOk()
    ensures BlockOk(Fresh) && Usable(Fresh)
  {
    assert !Fresh.lines[1];
  }

  /** The step to the next chunk when the current one is used up. */
  function NextChunk(h: Heap): Heap {
    if h.bc < PER_CHUNK then h
    else if h.cc + 1 >= Chunks(h) then AddChunk(h)
    else h.(cc := h.cc + 1, bc := 0)
  }

  lemma NextChunkOk(h: Heap)
    requires BlocksOk(h) && h.started
    ensures var h' := NextChunk(h);
      BlocksOk(h') && h'.started && h'.bc < PER_CHUNK && Place(h') < |h'.blocks| && h.blocks <= h'.blocks &&
      |h'.blocks| <= |h.blocks| + PER_CHUNK && Place(h) <= Place(h') &&
      (|h'.blocks| > |h.blocks| ==>
         Place(h) == |h.blocks| && Place(h') == |h.blocks| + 1 && h'.blocks[Place(h')] == Fresh) &&
      (|h'.blocks| == |h.blocks| ==> Place(h') == Place(h) && h'.blocks == h.blocks)
  {
    if h.bc >= PER_CHUNK && h.cc + 1 >= Chunks(h) { AddChunkOk(h); }
  }

  /** `get_block` once there is a chunk: the next usable block. */
  function Scan(h: Heap): (Heap, nat)
    requires BlocksOk(h) && h.started
    decreases |h.blocks| - Place(h)
  {
    NextChunkOk(h);
    FreshOk();
    var h1 := NextChunk(h);
    var i := Place(h1);
    var h2 := h1.(bc := h1.bc + 1);
    if Usable(h1.blocks[i]) then (h2, i) else Scan(h2)
  }

  /** `get_block`. */
  function GetBlock(h: Heap): (Heap, nat)
    requires BlocksOk(h)
  {
    if !h.started then (AddChunk(h), |h.blocks|) else Scan(h)
  }

  /**
   A block with a free line, never handed out before, and every block passed over on the way to it was full. The chunks
   grow by one at most, and only if no block was left that is not full; then the block is fresh.
   */
  ghost predicate Handed(h: Heap, h': Heap, i: nat) {
    BlocksOk(h') && h'.started && h.blocks <= h'.blocks && |h'.blocks| <= |h.blocks| + PER_CHUNK &&
    Place(h) <= i < Place(h') && i < |h'.blocks| && Place(h') == i + 1 &&
    (exists k :: 0 <= k < |h'.blocks[i].lines| && !h'.blocks[i].lines[k]) &&
    (forall b :: Place(h) <= b < i && b < |h.blocks| ==> Full(h.blocks[b])) &&
    h' == h.(blocks := h'.blocks, started := true, cc := h'.cc, bc := h'.bc) &&
    (|h'.blocks| > |h.blocks| ==> i >= |h.blocks| && h'.blocks[i] == Fresh)
  }

  lemma {:induction false} ScanOk(h: Heap)
    requires BlocksOk(h) && h.started
    ensures Handed(h, Scan(h).0, Scan(h).1)
    decreases |h.blocks| - Place(h)
  {
    hide BlockOk, Full, Fresh;
    NextChunkOk(h);
    FreshOk();
    var h1 := NextChunk(h);
    var h2 := h1.(bc := h1.bc + 1);
    assert BlockOk(h1.blocks[Place(h1)]);
    HasRoom(h1.blocks[Place(h1)]);
    if !Usable(h1.blocks[Place(h1)]) {
      ScanOk(h2);
      PassedOver(h, h2, Scan(h2).0, Scan(h2).1);
    }
  }

  lemma HasRoom(b: Block)
    requires BlockOk(b)
    ensures if Usable(b) then exists k :: 0 <= k < |b.lines| && !b.lines[k] else Full(b)
  {}

  /** One full block more on the way. */
  lemma PassedOver(h: Heap, h2: Heap, h': Heap, i: nat)
    requires h2 == h.(cc := h2.cc, bc := h2.bc) && h.started && Place(h2) == Place(h) + 1
    requires Place(h) < |h.blocks| && Full(h.blocks[Place(h)]) && Handed(h2, h', i)
    ensures Handed(h, h', i)
  {
    hide BlocksOk, Full, Fresh;
  }

  lemma GetBlockOk(h: Heap)
    requires BlocksOk(h) && (!h.started ==> Place(h) == 0)
    ensures Handed(h, GetBlock(h).0, GetBlock(h).1)
  {
    FreshOk();
    if h.started { ScanOk(h); } else { AddChunkOk(h); }
  }

  // ----- the hole finder -----

  /** The finder stands in free lines of a block that was handed out; what it calls the limit is inside them. */
  ghost predicate FinderOk(h: Heap) {
    h.cur < |h.blocks| && h.cur < Place(h) && 2 <= h.line <= LINES && LINE <= h.cursor <= h.limit &&
    h.limit == (h.line - 1) * LINE + 1 && |h.blocks[h.cur].lines| == LINES &&
    forall k :: h.cursor / LINE <= k < h.line ==> !h.blocks[h.cur].lines[k]
  }

  ghost predicate HeapOk(h: Heap) { BlocksOk(h) && h.started && FinderOk(h) }

  function AtHole(h: Heap, i: nat, o: Hole): Heap
    requires o.Hole?
  {
    h.(cur := i, cursor := Cursor(o), limit := Limit(o), line := o.end)
  }

  /** `get_new_block`: a usable block has a hole, so its loop turns once. */
  function GetNewBlock(h: Heap): Heap
    requires BlocksOk(h) && (!h.started ==> Place(h) == 0)
  {
    GetBlockOk(h);
    var (h1, i) := GetBlock(h);
    assert BlockOk(h1.blocks[i]);
    AtHole(h1, i, FindHole(h1.blocks[i].lines, 0))
  }

  lemma NewBlockOk(h: Heap)
    requires BlocksOk(h) && (!h.started ==> Place(h) == 0)
    ensures var h' := GetNewBlock(h);
      HeapOk(h') && h.blocks <= h'.blocks && |h'.blocks| <= |h.blocks| + PER_CHUNK && Place(h) <= h'.cur &&
      Place(h) < Place(h') && (|h'.blocks| > |h.blocks| ==> h'.cursor == LINE && h'.limit == LINE + LARGEST)
  {
    hide GetBlock, Fresh, Full;
    GetBlockOk(h);
    var (h1, i) := GetBlock(h);
    assert BlockOk(h1.blocks[i]);
    if |h1.blocks| > |h.blocks| { FreshHole(); }
  }

  lemma FreshHole()
    ensures FindHole(Fresh.lines, 0) == Hole(1, LINES)
  {
    assert !Fresh.lines[1];
  }

  lemma Standing(h: Heap)
    requires HeapOk(h)
    ensures h.cur < |h.blocks| && h.line <= LINES == |h.blocks[h.cur].lines|
  {}

  predicate Fits(h: Heap, size: nat) { h.cursor + size <= h.limit }

  /** No hole is larger than that: beyond it no number of chunks helps. */
  lemma NoLargerHole(h: Heap, size: nat)
    requires HeapOk(h) && size > LARGEST
    ensures !Fits(h, size)
  {}

  /** The next hole of the current block. */
  function NextHole(h: Heap): Hole
    requires h.cur < |h.blocks| && h.line <= |h.blocks[h.cur].lines|
  {
    FindHole(h.blocks[h.cur].lines, h.line)
  }

  lemma NextHoleOk(h: Heap)
    requires HeapOk(h) && NextHole(h).Hole?
    ensures var h' := AtHole(h, h.cur, NextHole(h)); HeapOk(h') && h.cursor <= h'.cursor && h.line < h'.line
  {}

  /** `ExpandingAllocator::allocate`: its range, and the heap afterwards. */
  function Allocate(h: Heap, size: nat): (Heap, Range)
    requires HeapOk(h) && size <= LARGEST
    decreases |h.blocks| - Place(h), LINES - h.line
  {
    if Fits(h, size) then (h.(cursor := h.cursor + size), Range(h.cur, h.cursor, size))
    else if NextHole(h).Hole? then
      NextHoleOk(h);
      Allocate(AtHole(h, h.cur, NextHole(h)), size)
    else
      NewBlockOk(h);
      PlaceBound(h);
      var h1 := GetNewBlock(h);
      if |h1.blocks| > |h.blocks| then (h1.(cursor := h1.cursor + size), Range(h1.cur, h1.cursor, size))
      else PlaceBound(h1); Allocate(h1, size)
  }

  lemma PlaceBound(h: Heap)
    requires BlocksOk(h) && h.started
    ensures Place(h) <= |h.blocks|
  {
    assert (h.cc + 1) * PER_CHUNK <= Chunks(h) * PER_CHUNK;
  }

  // ----- what is allocated where -----

  /** The range lies in a block handed out before, or below the finder's cursor in the current one. */
  predicate Behind(h: Heap, r: Range) {
    if r.block == h.cur then r.start + r.size <= h.cursor else r.block < Place(h)
  }

  /** The range lies ahead: in the current block from the cursor on, or in a block not yet handed out. */
  predicate Ahead(h: Heap, r: Range) {
    if r.block == h.cur then h.cursor <= r.start else Place(h) <= r.block
  }

  /** Inside lines that are free, clear of the header line and of the end of the block. */
  ghost predicate InFreeLines(h: Heap, r: Range) {
    r.block < |h.blocks| && |h.blocks[r.block].lines| == LINES && LINE <= r.start && r.start + r.size <= BLOCK &&
    forall k :: 0 <= k < LINES && Touches(r.start, r.size, k) ==> !h.blocks[r.block].lines[k]
  }

  /** No closer to a line in use than the finder's limit allows: it ends a line early, but for one byte. */
  ghost predicate ClearOfUsed(h: Heap, r: Range) {
    r.block < |h.blocks| && |h.blocks[r.block].lines| == LINES &&
    forall k :: 0 <= k < LINES && h.blocks[r.block].lines[k] ==>
      r.start + r.size <= (k - 1) * LINE + 1 || (k + 1) * LINE <= r.start
  }

  /** The heap changes only by growing and by moving on. */
  ghost predicate MovedOn(h: Heap, h': Heap) {
    h.blocks <= h'.blocks && |h'.blocks| <= |h.blocks| + PER_CHUNK && Place(h) <= Place(h') &&
    ((h'.cur == h.cur && h.cursor <= h'.cursor) || Place(h) <= h'.cur)
  }

  lemma {:induction false} AllocateOk(h: Heap, size: nat)
    requires HeapOk(h) && size <= LARGEST
    ensures var (h', r) := Allocate(h, size);
      HeapOk(h') && MovedOn(h, h') && r.size == size && Ahead(h, r) && Behind(h', r) && InFreeLines(h', r) &&
      ClearOfUsed(h', r)
    decreases |h.blocks| - Place(h), LINES - h.line
  {
    if Fits(h, size) {
      BumpOk(h, size);
    } else if NextHole(h).Hole? {
      NextHoleOk(h);
      AllocateOk(AtHole(h, h.cur, NextHole(h)), size);
    } else {
      NewBlockOk(h);
      PlaceBound(h);
      var h1 := GetNewBlock(h);
      if |h1.blocks| > |h.blocks| {
        BumpOk(h1, size);
      } else {
        PlaceBound(h1);
        AllocateOk(h1, size);
      }
    }
  }

  lemma BumpOk(h: Heap, size: nat)
    requires HeapOk(h) && Fits(h, size)
    ensures var h' := h.(cursor := h.cursor + size);
      HeapOk(h') && Ahead(h, Range(h.cur, h.cursor, size)) && Behind(h', Range(h.cur, h.cursor, size)) &&
      InFreeLines(h', Range(h.cur, h.cursor, size)) && ClearOfUsed(h', Range(h.cur, h.cursor, size))
  {
    UsedAway(h);
  }

  /** A line in use lies before the finder's cursor, or from its line on. */
  lemma UsedAway(h: Heap)
    requires HeapOk(h)
    ensures forall k :: 0 <= k < LINES && h.blocks[h.cur].lines[k] ==> (k + 1) * LINE <= h.cursor || h.line <= k
  {
    hide BlocksOk;
  }

  /** What is behind stays behind. */
  lemma BehindStays(h: Heap, h': Heap, r: Range)
    requires HeapOk(h) && HeapOk(h') && MovedOn(h, h') && Behind(h, r)
    ensures Behind(h', r)
  {}

  ghost predicate Disjoint(r: Range, s: Range) {
    r.block != s.block || r.start + r.size <= s.start || s.start + s.size <= r.start
  }

  lemma AheadIsDisjoint(h: Heap, r: Range, s: Range)
    requires HeapOk(h) && Behind(h, r) && Ahead(h, s)
    ensures Disjoint(r, s)
  {}

  // ----- the allocator as it is changed -----

  class Allocator {
    var blocks: seq<Block>
    var started: bool
    var cc: nat
    var bc: nat
    var cur: nat
    var cursor: nat
    var limit: int
    var line: nat

    function State(): Heap
      reads this
    {
      Heap(blocks, started, cc, bc, cur, cursor, limit, line)
    }

    /** The allocator takes its first block when it is made. */
    constructor ()
      ensures State() == GetNewBlock(Heap([], false, 0, 0, 0, 0, 0, 0)) && HeapOk(State())
    {
      blocks, started, cc, bc, cur, cursor, limit, line := [], false, 0, 0, 0, 0, 0, 0;
      new;
      NewBlockOk(State());
      TakeBlock();
    }

    method NewChunk()
      modifies this
      ensures State() == AddChunk(old(State()))
    {
      cc := |blocks| / PER_CHUNK;
      blocks := blocks + FreshChunk();
      started, bc := true, 1;
    }

    /** The chunk with the next block: the following one, or a new one, when this one is used up. */
    method EnterChunk()
      requires BlocksOk(State()) && started
      modifies this
      ensures State() == NextChunk(old(State()))
    {
      if bc >= PER_CHUNK {
        if cc + 1 >= |blocks| / PER_CHUNK { NewChunk(); } else { cc, bc := cc + 1, 0; }
      }
    }

    /** `get_block`. */
    method NextBlock() returns (i: nat)
      requires BlocksOk(State()) && (!started ==> Place(State()) == 0)
      modifies this
      ensures (State(), i) == GetBlock(old(State()))
    {
      hide NextChunk, Usable, Fresh;
      if !started {
        i := |blocks|;
        NewChunk();
        return;
      }
      while true
        invariant BlocksOk(State()) && started && Scan(State()) == GetBlock(old(State()))
        decreases |blocks| - Place(State())
      {
        NextChunkOk(State());
        FreshOk();
        EnterChunk();
        i := cc * PER_CHUNK + bc;
        bc := bc + 1;
        if Usable(blocks[i]) { return; }
      }
    }

    /** `get_new_block`. */
    method TakeBlock()
      requires BlocksOk(State()) && (!started ==> Place(State()) == 0)
      modifies this
      ensures State() == GetNewBlock(old(State()))
    {
      GetBlockOk(State());
      cur := NextBlock();
      assert BlockOk(blocks[cur]);
      var o := FindHole(blocks[cur].lines, 0);
      cursor, limit, line := Cursor(o), Limit(o), o.end;
    }

    /** `allocate`. */
    method AllocateBytes(size: nat) returns (r: Range)
      requires HeapOk(State()) && size <= LARGEST
      modifies this
      ensures (State(), r) == Allocate(old(State()), size)
    {
      hide FindHole, BlocksOk, FinderOk, GetNewBlock;
      Standing(State());
      while cursor + size > limit
        invariant HeapOk(State())
        invariant Allocate(State(), size) == Allocate(old(State()), size)
        decreases !Fits(State(), size), |blocks| - Place(State()), LINES - line
      {
        ghost var h := State();
        Standing(h);
        PlaceBound(h);
        var o := FindHole(blocks[cur].lines, line);
        if o.Hole? {
          NextHoleOk(h);
          cursor, limit, line := Cursor(o), Limit(o), o.end;
        } else {
          NewBlockOk(h);
          TakeBlock();
          PlaceBound(State());
        }
        Standing(State());
      }
      r := Range(cur, cursor, size);
      cursor := cursor + size;
    }
  }
}
