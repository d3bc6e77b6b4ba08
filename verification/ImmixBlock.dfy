/**
 One block of the heap and its line map: marking is conservative but never misses a line an object
 touches, and the holes found by scanning the map consist of free lines only.
 */
module ImmixBlock {

  const LINE: nat := 128
  const LINES: nat := 256
  const BLOCK: nat := 32768

  datatype Status = Free | Recyclable | Unavailable

  type LineMap = seq<bool>

  /** A block: the line map (true for a line in use), and what `update_stats` last made of it. */
  datatype Block = Block(lines: LineMap, status: Status, holes: nat, used: nat)

  // ----- marking -----

  /** `clear_lines`: the first line holds the header. */
  function Cleared(): (ls: LineMap)
    ensures |ls| == LINES && forall k :: 0 <= k < LINES ==> (ls[k] <==> k == 0)
  {
    seq(LINES, k => k == 0)
  }

  /** The lines from `lo` to `hi` are marked. */
  function Marked(ls: LineMap, lo: nat, hi: nat): (r: LineMap)
    requires |ls| == LINES
    ensures |r| == LINES && forall k :: 0 <= k < LINES ==> (r[k] <==> ls[k] || lo <= k <= hi)
  {
    seq(LINES, k requires 0 <= k < LINES => ls[k] || lo <= k <= hi)
  }

  /** `(line_offset + size - 1) >> cLineBits` in unsigned arithmetic. */
  function AdditionalLines(offset: nat, size: nat): nat {
    if offset % LINE + size == 0 then 0xffff_ffff / LINE else (offset % LINE + size - 1) / LINE
  }

  /** The last line `mark_address` marks; at `LINES` or above, the assertion in `mark_line` fails. */
  function LastMarked(offset: nat, size: nat): nat {
    var line := offset / LINE;
    if size <= LINE && line + 1 < LINES then line + 1 else line + AdditionalLines(offset, size)
  }

  /** `mark_address` for an object of that size at that offset in the block. */
  function MarkAddress(ls: LineMap, offset: nat, size: nat): (r: LineMap)
    requires |ls| == LINES && offset < BLOCK
    ensures |r| == LINES
  {
    Marked(ls, offset / LINE, LastMarked(offset, size))
  }

  /** The object touches the line. */
  predicate Touches(offset: nat, size: nat, k: nat) { k * LINE < offset + size && offset < (k + 1) * LINE }

  /**
   Exactly these lines are in use after an object inside the block is marked: those that were, those the object touches,
   the one it starts in even if it is empty, and for an object no larger than a line the next one.
   */
  lemma MarkCovers(ls: LineMap, offset: nat, size: nat, k: nat)
    requires |ls| == LINES && offset + size <= BLOCK && offset < BLOCK && k < LINES
    ensures MarkAddress(ls, offset, size)[k] <==>
      ls[k] || Touches(offset, size, k) || k == offset / LINE || (size <= LINE && k == offset / LINE + 1)
  {
  }

  /** The assertion in `mark_line` fails for one kind of object only: an empty one at the start of the last line. */
  lemma MarkLineAssertion(offset: nat, size: nat)
    requires offset + size <= BLOCK && offset < BLOCK
    ensures LastMarked(offset, size) >= LINES <==> size == 0 && offset == (LINES - 1) * LINE
  {
  }

  /**
   The header that stands before an object is not part of the range that is marked. Its line is marked with the
   object exactly when the object does not start in the first 16 bytes of its line.
   */
  lemma HeaderMarked(ls: LineMap, offset: nat, size: nat)
    requires |ls| == LINES && LINE <= offset - 16 && offset + size <= BLOCK && offset < BLOCK
    ensures !ls[(offset - 16) / LINE] ==>
      (MarkAddress(ls, offset, size)[(offset - 16) / LINE] <==> offset % LINE >= 16)
  {}

  // ----- holes -----

  function CountUsed(ls: LineMap, n: nat): nat
    requires n <= |ls|
  {
    if n == 0 then 0 else CountUsed(ls, n - 1) + if ls[n - 1] then 1 else 0
  }

  /** The number of runs of free lines that begin below `n`. */
  function CountHoles(ls: LineMap, n: nat): nat
    requires n <= |ls|
  {
    if n == 0 then 0 else CountHoles(ls, n - 1) + if !ls[n - 1] && (n == 1 || ls[n - 2]) then 1 else 0
  }

  function StatusOf(used: nat, holes: nat): Status {
    if used <= 1 then Free else if holes >= 1 then Recyclable else Unavailable
  }

  /** `update_stats`. */
  function Updated(b: Block): Block
    requires |b.lines| == LINES
  {
    var used, holes := CountUsed(b.lines, LINES), CountHoles(b.lines, LINES);
    Block(b.lines, StatusOf(used, holes), holes, used)
  }

  /** `usable`. */
  predicate Usable(b: Block) { b.status != Unavailable }

  lemma {:induction false} UsedBelow(ls: LineMap, n: nat)
    requires n <= |ls|
    ensures CountUsed(ls, n) <= n
    ensures CountUsed(ls, n) == n <==> forall k :: 0 <= k < n ==> ls[k]
    ensures n > 0 && ls[0] ==> CountUsed(ls, n) >= 1
    ensures n > 0 && ls[0] ==> (CountUsed(ls, n) == 1 <==> forall k :: 0 < k < n ==> !ls[k])
  {
    if n > 0 { UsedBelow(ls, n - 1); }
  }

  lemma {:induction false} HolesBelow(ls: LineMap, n: nat)
    requires n <= |ls|
    ensures CountHoles(ls, n) == 0 <==> forall k :: 0 <= k < n ==> ls[k]
  {
    if n > 0 { HolesBelow(ls, n - 1); }
  }

  /**
   What the status says of the line map, whose first line is always in use: free if no other line is in use,
   unavailable if all are, recyclable in between. A usable block has a free line.
   */
  lemma StatusMeans(b: Block)
    requires |b.lines| == LINES && b.lines[0]
    ensures Updated(b).status == Free <==> forall k :: 0 < k < LINES ==> !b.lines[k]
    ensures Updated(b).status == Unavailable <==> forall k :: 0 <= k < LINES ==> b.lines[k]
  {
    UsedBelow(b.lines, LINES);
    HolesBelow(b.lines, LINES);
  }

  /** A hole from line `first` up to line `end`; `None` when there is no free line from where the search starts. */
  datatype Hole = None | Hole(first: nat, end: nat)

  function FirstFree(ls: LineMap, from: nat): nat
    requires from <= |ls|
    ensures from <= FirstFree(ls, from) <= |ls|
    ensures forall k :: from <= k < FirstFree(ls, from) ==> ls[k]
    ensures FirstFree(ls, from) < |ls| ==> !ls[FirstFree(ls, from)]
    decreases |ls| - from
  {
    if from == |ls| || !ls[from] then from else FirstFree(ls, from + 1)
  }

  function FirstUsed(ls: LineMap, from: nat): nat
    requires from <= |ls|
    ensures from <= FirstUsed(ls, from) <= |ls|
    ensures forall k :: from <= k < FirstUsed(ls, from) ==> !ls[k]
    ensures FirstUsed(ls, from) < |ls| ==> ls[FirstUsed(ls, from)]
    decreases |ls| - from
  {
    if from == |ls| || ls[from] then from else FirstUsed(ls, from + 1)
  }

  /** `find_hole`: the next run of free lines, all of it. */
  function FindHole(ls: LineMap, from: nat): (h: Hole)
    requires from <= |ls|
    ensures h.None? <==> forall k :: from <= k < |ls| ==> ls[k]
    ensures h.Hole? ==> from <= h.first < h.end <= |ls| && forall k :: h.first <= k < h.end ==> !ls[k]
    ensures h.Hole? ==> (forall k :: from <= k < h.first ==> ls[k]) && (h.end < |ls| ==> ls[h.end])
  {
    var first := FirstFree(ls, from);
    if first == |ls| then None else Hole(first, FirstUsed(ls, first))
  }

  /** Where allocation in a hole starts, and what the finder takes for its end: one byte into its last line. */
  function Cursor(h: Hole): nat
    requires h.Hole?
  {
    h.first * LINE
  }

  function Limit(h: Hole): int
    requires h.Hole?
  {
    (h.end - 1) * LINE + 1
  }

  // ----- the block as it is changed -----

  class LineTable {
    const lines: array<bool>
    var status: Status
    var holes: nat
    var used: nat

    ghost predicate Valid()
      reads this, lines
    {
      lines.Length == LINES
    }

    ghost function Contents(): Block
      reads this, lines
    {
      Block(lines[..], status, holes, used)
    }

    constructor ()
      ensures Valid() && fresh(lines) && Contents() == Block(Cleared(), Free, 1, 1)
    {
      lines := new bool[LINES](k => k == 0);
      status, holes, used := Free, 1, 1;
      new;
      assert lines[..] == Cleared();
    }

    method ClearLines()
      requires Valid()
      modifies lines
      ensures Valid() && Contents() == old(Contents()).(lines := Cleared())
    {
      for k := 0 to LINES
        invariant forall i :: 0 <= i < k ==> !lines[i]
      {
        lines[k] := false;
      }
      lines[0] := true;
      assert lines[..] == Cleared();
    }

    /** `mark_address`; `false` where the assertion in `mark_line` fails. */
    method Mark(offset: nat, size: nat) returns (ok: bool)
      requires Valid() && offset < BLOCK
      modifies lines
      ensures Valid() && (ok <==> LastMarked(offset, size) < LINES)
      ensures ok ==> Contents() == old(Contents()).(lines := MarkAddress(old(lines[..]), offset, size))
    {
      var line := offset / LINE;
      lines[line] := true;
      if size <= LINE && line + 1 < LINES {
        lines[line + 1] := true;
      } else {
        var additional := AdditionalLines(offset, size);
        var i := 1;
        while i <= additional && line + i < LINES
          invariant 1 <= i <= additional + 1 && line + i <= LINES
          invariant forall k :: 0 <= k < LINES ==> (lines[k] <==> old(lines[k]) || line <= k < line + i)
        {
          lines[line + i] := true;
          i := i + 1;
        }
        if i <= additional { return false; }
      }
      ok := true;
      assert lines[..] == MarkAddress(old(lines[..]), offset, size);
    }

    method UpdateStats()
      requires Valid()
      modifies this
      ensures Valid() && Contents() == Updated(old(Contents()))
    {
      holes, used := 0, 0;
      var inHole := false;
      for i := 0 to LINES
        invariant holes == CountHoles(lines[..], i) && used == CountUsed(lines[..], i)
        invariant inHole <==> i > 0 && !lines[i - 1]
      {
        if !lines[i] {
          if !inHole { holes := holes + 1; }
          inHole := true;
        } else {
          inHole := false;
          used := used + 1;
        }
      }
      status := if used <= 1 then Free else if holes >= 1 then Recyclable else Unavailable;
    }

    /** `find_hole`, from line `start`: the hole it found, and the line it stopped at. */
    method Search(start: nat) returns (h: Hole, line: nat)
      requires Valid() && start <= LINES
      ensures h == FindHole(lines[..], start) && line == if h.Hole? then h.end else LINES
    {
      line := start;
      while line < LINES && lines[line]
        invariant line <= LINES && FirstFree(lines[..], line) == FirstFree(lines[..], start)
      {
        line := line + 1;
      }
      if line == LINES { return None, line; }
      var first := line;
      while line < LINES && !lines[line]
        invariant first <= line <= LINES && FirstUsed(lines[..], line) == FirstUsed(lines[..], first)
      {
        line := line + 1;
      }
      h := Hole(first, line);
    }
  }
}
