/**
 The packed action table: the actions of many states share one array. A state's actions lie at an offset
 of its own; a slot belongs to a state when the lookahead kept in it is its distance from the offset.
 */
module ActionTable {

  datatype Slot = Slot(lookahead: int, action: int)

  const Empty := Slot(-1, -1)

  /** `aAction[]` and `nAction`. */
  datatype Table = Table(slots: seq<Slot>, used: nat)

  /** `aLookahead[]` with its extreme lookaheads. */
  datatype Transaction = Transaction(entries: seq<Slot>, mn: int, mnAction: int, mx: int)

  datatype Answer = Nothing | Is(action: int)

  /** What the driver finds: the slot at `offset + x`, if its lookahead is `x`. */
  function Lookup(t: Table, offset: int, x: int): Answer {
    if 0 <= offset + x < t.used && t.used <= |t.slots| && t.slots[offset + x].lookahead == x
    then Is(t.slots[offset + x].action) else Nothing
  }

  /** What a transaction says about a lookahead. */
  function Find(entries: seq<Slot>, x: int): Answer {
    if entries == [] then Nothing
    else if entries[|entries| - 1].lookahead == x then Is(entries[|entries| - 1].action)
    else Find(entries[..|entries| - 1], x)
  }

  /** Looking up at `offset` finds exactly what the transaction holds. */
  ghost predicate Exact(t: Table, offset: int, entries: seq<Slot>) {
    forall x :: x >= 0 ==> Lookup(t, offset, x) == Find(entries, x)
  }

  ghost predicate TableOk(t: Table) {
    t.used <= |t.slots| && (t.used > 0 ==> t.slots[t.used - 1].lookahead >= 0) &&
    (forall i :: 0 <= i < |t.slots| ==> t.slots[i].lookahead >= -1) &&
    forall i :: t.used <= i < |t.slots| ==> t.slots[i] == Empty
  }

  ghost predicate Distinct(entries: seq<Slot>) {
    forall j, k :: 0 <= j < k < |entries| ==> entries[j].lookahead != entries[k].lookahead
  }

  /** `mn` and `mx` are the extreme lookaheads, `mnAction` the action of the least. */
  ghost predicate Extremes(tr: Transaction) {
    (exists j :: 0 <= j < |tr.entries| && tr.entries[j] == Slot(tr.mn, tr.mnAction)) &&
    (exists j :: 0 <= j < |tr.entries| && tr.entries[j].lookahead == tr.mx) &&
    forall j :: 0 <= j < |tr.entries| ==> 0 <= tr.mn <= tr.entries[j].lookahead <= tr.mx
  }

  lemma {:induction false} EntryAt(entries: seq<Slot>, j: nat)
    requires Distinct(entries) && j < |entries|
    ensures Find(entries, entries[j].lookahead) == Is(entries[j].action)
    decreases |entries|
  {
    var n := |entries| - 1;
    if j < n {
      assert entries[..n][j] == entries[j];
      EntryAt(entries[..n], j);
    }
  }

  lemma {:induction false} EntryFrom(entries: seq<Slot>, x: int) returns (j: int)
    ensures Find(entries, x).Is? ==> 0 <= j < |entries| && entries[j] == Slot(x, Find(entries, x).action)
    decreases |entries|
  {
    j := -1;
    if entries != [] {
      j := |entries| - 1;
      if entries[j].lookahead != x { j := EntryFrom(entries[..j], x); }
    }
  }

  // ----- where a transaction goes -----

  function Empties(n: nat): (r: seq<Slot>)
    ensures |r| == n && forall i :: 0 <= i < n ==> r[i] == Empty
  {
    seq(n, _ => Empty)
  }

  /** Enough room for the transaction at the end of the table. */
  function Grown(t: Table, tr: Transaction): Table {
    if t.used + tr.mx + 1 >= |t.slots| && tr.mx >= 0 then
      t.(slots := t.slots + Empties(t.used + tr.mx + 21))
    else t
  }

  /** The slot for lookahead `x` when the least lookahead is put at `i`. */
  function At(tr: Transaction, i: int, j: nat): int
    requires j < |tr.entries|
  {
    tr.entries[j].lookahead - tr.mn + i
  }

  /** How many of the first `n` slots belong to `offset`. */
  function Owned(t: Table, offset: int, n: nat): nat
    requires n <= |t.slots|
  {
    if n == 0 then 0
    else
      var l := t.slots[n - 1].lookahead;
      Owned(t, offset, n - 1) + if l >= 0 && l == n - 1 - offset then 1 else 0
  }

  /** The first `n` entries lie at `i` already. */
  predicate Matches(t: Table, tr: Transaction, i: int, n: nat)
    requires n <= |tr.entries| && t.used <= |t.slots|
  {
    forall j :: 0 <= j < n ==> 0 <= At(tr, i, j) < t.used && t.slots[At(tr, i, j)] == tr.entries[j]
  }

  /** The transaction already lies at `i`, and nothing else belongs to that offset. */
  predicate Dup(t: Table, tr: Transaction, i: int)
    requires t.used <= |t.slots|
  {
    0 <= i < t.used && t.slots[i] == Slot(tr.mn, tr.mnAction) && Matches(t, tr, i, |tr.entries|) &&
    Owned(t, i - tr.mn, t.used) == |tr.entries|
  }

  /** The slots of the first `n` entries are free. */
  predicate FitsAt(t: Table, tr: Transaction, i: int, n: nat)
    requires n <= |tr.entries|
  {
    forall j :: 0 <= j < n ==> 0 <= At(tr, i, j) < |t.slots| && t.slots[At(tr, i, j)].lookahead < 0
  }

  /** Nothing of the first `n` slots holds a lookahead that would be found at the offset. */
  predicate NotInUse(t: Table, tr: Transaction, i: int, n: nat)
    requires n <= t.used <= |t.slots|
  {
    forall j :: 0 <= j < n ==> t.slots[j].lookahead != j + tr.mn - i
  }

  /** The transaction fits into free slots at `i`, and the offset is not in use. */
  predicate Hole(t: Table, tr: Transaction, i: int)
    requires t.used <= |t.slots|
  {
    0 <= i < |t.slots| - tr.mx && i < |t.slots| && t.slots[i].lookahead < 0 && FitsAt(t, tr, i, |tr.entries|) &&
    NotInUse(t, tr, i, t.used)
  }

  /** The place `acttab_insert` settles on: the last duplicate, else the first hole, else the end of the search. */
  ghost predicate Chosen(t: Table, tr: Transaction, i: int)
    requires t.used <= |t.slots|
  {
    if exists k :: Dup(t, tr, k) then Dup(t, tr, i) && forall k :: Dup(t, tr, k) ==> k <= i
    else if exists k :: Hole(t, tr, k) then Hole(t, tr, i) && forall k :: Hole(t, tr, k) ==> i <= k
    else i == if |t.slots| > tr.mx then |t.slots| - tr.mx else 0
  }

  /** The first `n` entries written at `i`; what would lie outside the array is not written here. */
  function Written(t: Table, tr: Transaction, i: int, n: nat): (u: Table)
    requires n <= |tr.entries|
    ensures |u.slots| == |t.slots|
  {
    if n == 0 then t
    else
      var u := Written(t, tr, i, n - 1);
      var k := At(tr, i, n - 1);
      if 0 <= k < |u.slots| then Table(u.slots[k := tr.entries[n - 1]], if k >= u.used then k + 1 else u.used) else u
  }

  /** `u` is the table after `acttab_insert` has put `tr` into `t` at `offset`. */
  ghost predicate Inserted(t: Table, tr: Transaction, offset: int, u: Table) {
    var g := Grown(t, tr);
    g.used <= |g.slots| && Chosen(g, tr, offset + tr.mn) && u == Written(g, tr, offset + tr.mn, |tr.entries|)
  }

  /** Every entry's slot exists. */
  ghost predicate InBounds(t: Table, tr: Transaction, i: int) {
    forall j :: 0 <= j < |tr.entries| ==> 0 <= At(tr, i, j) < |t.slots|
  }

  // ----- what is written where -----

  lemma {:induction false} WrittenTable(t: Table, tr: Transaction, i: int, n: nat)
    requires TableOk(t) && Extremes(tr) && n <= |tr.entries|
    ensures TableOk(Written(t, tr, i, n)) && t.used <= Written(t, tr, i, n).used
  {
    if n > 0 { WrittenTable(t, tr, i, n - 1); }
  }

  lemma {:induction false} WrittenElsewhere(t: Table, tr: Transaction, i: int, n: nat, k: nat)
    requires n <= |tr.entries| && k < |t.slots| && forall j :: 0 <= j < n ==> At(tr, i, j) != k
    ensures Written(t, tr, i, n).slots[k] == t.slots[k]
    ensures k >= t.used && (forall j :: 0 <= j < n ==> At(tr, i, j) < k) ==> k >= Written(t, tr, i, n).used
  {
    if n > 0 {
      WrittenElsewhere(t, tr, i, n - 1, k);
      assert At(tr, i, n - 1) != k;
    }
  }

  lemma {:induction false} WrittenEntry(t: Table, tr: Transaction, i: int, n: nat, j: nat)
    requires Distinct(tr.entries) && j < n <= |tr.entries| && 0 <= At(tr, i, j) < |t.slots|
    ensures Written(t, tr, i, n).slots[At(tr, i, j)] == tr.entries[j] && At(tr, i, j) < Written(t, tr, i, n).used
    decreases n
  {
    if j < n - 1 { WrittenEntry(t, tr, i, n - 1, j); }
  }

  // ----- what an insertion does to lookups -----

  /** No lookup at the offset finds anything. */
  ghost predicate Free(t: Table, offset: int) { forall x :: x >= 0 ==> Lookup(t, offset, x).Nothing? }

  /** The slot of lookahead `x` at the offset, written by an entry for `x` or by none. */
  lemma NewLookup(t: Table, tr: Transaction, i: int, x: int)
    requires TableOk(t) && Distinct(tr.entries) && Extremes(tr) && x >= 0
    requires InBounds(t, tr, i) && Lookup(t, i - tr.mn, x).Nothing?
    ensures Lookup(Written(t, tr, i, |tr.entries|), i - tr.mn, x) == Find(tr.entries, x)
  {
    hide TableOk, Extremes, Written;
    var u, o, n := Written(t, tr, i, |tr.entries|), i - tr.mn, |tr.entries|;
    WrittenTable(t, tr, i, n);
    TableUsed(t);
    TableUsed(u);
    if j :| 0 <= j < n && tr.entries[j].lookahead == x {
      assert o + x == At(tr, i, j);
      WrittenEntry(t, tr, i, n, j);
      EntryAt(tr.entries, j);
    } else {
      var j := EntryFrom(tr.entries, x);
      assert Find(tr.entries, x).Nothing?;
      if 0 <= o + x < |t.slots| {
        WrittenElsewhere(t, tr, i, n, o + x);
        if o + x >= t.used { FreshSlot(t, o + x); }
      }
    }
  }

  lemma TableUsed(t: Table)
    requires TableOk(t)
    ensures t.used <= |t.slots|
  {}

  lemma FreshSlot(t: Table, k: nat)
    requires TableOk(t) && t.used <= k < |t.slots|
    ensures t.slots[k] == Empty
  {}

  /** Slots written into free space change no lookup at another offset. */
  lemma OthersStay(t: Table, tr: Transaction, i: int, offset: int, x: int)
    requires TableOk(t) && Distinct(tr.entries) && Extremes(tr) && FitsAt(t, tr, i, |tr.entries|)
    requires offset != i - tr.mn && x >= 0
    ensures Lookup(Written(t, tr, i, |tr.entries|), offset, x) == Lookup(t, offset, x)
  {
    hide TableOk, Extremes, Written;
    var u, n := Written(t, tr, i, |tr.entries|), |tr.entries|;
    WrittenTable(t, tr, i, n);
    TableUsed(t);
    TableUsed(u);
    var k := offset + x;
    if 0 <= k < |t.slots| {
      if j :| 0 <= j < n && At(tr, i, j) == k {
        WrittenEntry(t, tr, i, n, j);
      } else {
        WrittenElsewhere(t, tr, i, n, k);
        if k >= t.used { FreshSlot(t, k); }
      }
    }
  }

  /** A transaction and the offset it was put at. */
  datatype Placed = Placed(offset: int, entries: seq<Slot>)

  /** All transactions so far are found exactly where they were put. */
  ghost predicate Packed(t: Table, placed: seq<Placed>) {
    forall k :: 0 <= k < |placed| ==> Exact(t, placed[k].offset, placed[k].entries) && !Free(t, placed[k].offset)
  }

  /** An insertion into free slots at a free offset leaves every lookup right. */
  lemma FreeIsRight(t: Table, tr: Transaction, i: int, placed: seq<Placed>)
    requires TableOk(t) && Distinct(tr.entries) && Extremes(tr) && Packed(t, placed)
    requires FitsAt(t, tr, i, |tr.entries|) && Free(t, i - tr.mn)
    ensures var u := Written(t, tr, i, |tr.entries|); TableOk(u) && Packed(u, placed + [Placed(i - tr.mn, tr.entries)])
  {
    hide TableOk, Distinct, Written, Extremes, Find, FitsAt;
    var u, o := Written(t, tr, i, |tr.entries|), i - tr.mn;
    WrittenTable(t, tr, i, |tr.entries|);
    FitsInBounds(t, tr, i);
    forall x | x >= 0 ensures Lookup(u, o, x) == Find(tr.entries, x) { NewLookup(t, tr, i, x); }
    NotFree(u, tr, o);
    forall k | 0 <= k < |placed|
      ensures Exact(u, placed[k].offset, placed[k].entries) && !Free(u, placed[k].offset)
    {
      var p := placed[k].offset;
      assert p != o;
      forall x | x >= 0 ensures Lookup(u, p, x) == Lookup(t, p, x) { OthersStay(t, tr, i, p, x); }
      var y :| y >= 0 && !Lookup(t, p, y).Nothing?;
      assert Lookup(u, p, y) == Lookup(t, p, y);
    }
  }

  lemma FitsInBounds(t: Table, tr: Transaction, i: int)
    requires FitsAt(t, tr, i, |tr.entries|)
    ensures InBounds(t, tr, i)
  {}

  lemma NotFree(t: Table, tr: Transaction, o: int)
    requires Distinct(tr.entries) && Extremes(tr) && Exact(t, o, tr.entries)
    ensures !Free(t, o)
  {
    var j :| 0 <= j < |tr.entries| && tr.entries[j] == Slot(tr.mn, tr.mnAction);
    EntryAt(tr.entries, j);
    assert Lookup(t, o, tr.mn) == Find(tr.entries, tr.mn);
  }

  // ----- duplicates -----

  lemma {:induction false} OwnedSlots(t: Table, offset: int, n: nat) returns (ks: set<int>)
    requires n <= |t.slots|
    ensures |ks| == Owned(t, offset, n)
    ensures forall k :: k in ks <==> 0 <= k < n && t.slots[k].lookahead >= 0 && t.slots[k].lookahead == k - offset
  {
    if n == 0 {
      ks := {};
    } else {
      ks := OwnedSlots(t, offset, n - 1);
      var l := t.slots[n - 1].lookahead;
      if l >= 0 && l == n - 1 - offset { ks := ks + {n - 1}; }
    }
  }

  lemma {:induction false} EntrySlots(tr: Transaction, i: int, n: nat) returns (ks: set<int>)
    requires Distinct(tr.entries) && n <= |tr.entries|
    ensures |ks| == n && forall k :: k in ks <==> exists j :: 0 <= j < n && At(tr, i, j) == k
  {
    if n == 0 {
      ks := {};
    } else {
      var ls := EntrySlots(tr, i, n - 1);
      var k := At(tr, i, n - 1);
      assert k !in ls;
      ks := ls + {k};
    }
  }

  lemma {:induction false} SmallerSubset<T>(a: set<T>, b: set<T>)
    requires a <= b
    ensures |a| <= |b|
    decreases a
  {
    if x :| x in a { SmallerSubset(a - {x}, b - {x}); }
  }

  lemma SubsetsEqual<T>(a: set<T>, b: set<T>)
    requires a <= b && |a| == |b|
    ensures a == b
  {
    forall y | y in b ensures y in a {
      if y !in a { SmallerSubset(a, b - {y}); }
    }
  }

  /** At a duplicate the table answers exactly as the transaction. */
  lemma DupIsExact(t: Table, tr: Transaction, i: int)
    requires TableOk(t) && Distinct(tr.entries) && Extremes(tr) && Dup(t, tr, i)
    ensures Exact(t, i - tr.mn, tr.entries)
  {
    hide TableOk, Extremes, Find, Owned;
    var o, n := i - tr.mn, |tr.entries|;
    TableUsed(t);
    var ks := OwnedSlots(t, o, t.used);
    var ls := EntrySlots(tr, i, n);
    forall k | k in ls ensures k in ks {
      var j :| 0 <= j < n && At(tr, i, j) == k;
      EntryNatural(tr, j);
    }
    SubsetsEqual(ls, ks);
    forall x | x >= 0 ensures Lookup(t, o, x) == Find(tr.entries, x) {
      if Lookup(t, o, x).Is? {
        assert o + x in ks;
        var j :| 0 <= j < n && At(tr, i, j) == o + x;
        EntryAt(tr.entries, j);
      } else {
        assert forall j :: 0 <= j < n ==> At(tr, i, j) != o + x;
        var j := EntryFrom(tr.entries, x);
      }
    }
  }

  lemma EntryNatural(tr: Transaction, j: nat)
    requires Extremes(tr) && j < |tr.entries|
    ensures tr.entries[j].lookahead >= 0
  {}

  lemma {:induction false} Rewritten(t: Table, tr: Transaction, i: int, n: nat)
    requires TableOk(t) && n <= |tr.entries| && Matches(t, tr, i, n)
    ensures Written(t, tr, i, n) == t
  {
    if n > 0 {
      Rewritten(t, tr, i, n - 1);
      assert t.slots[At(tr, i, n - 1)] == tr.entries[n - 1];
    }
  }

  // ----- the search -----

  lemma GrownOk(t: Table, tr: Transaction)
    requires TableOk(t) && Extremes(tr)
    ensures var u := Grown(t, tr);
      TableOk(u) && u.used == t.used && u.used + tr.mx + 1 < |u.slots| &&
      forall o, x :: Lookup(u, o, x) == Lookup(t, o, x)
  {}

  /** The search for a hole is sure to succeed when the table has this much room. */
  lemma RoomMeansHole(t: Table, tr: Transaction)
    requires TableOk(t) && Extremes(tr) && |t.slots| > t.used + tr.mn + tr.mx
    ensures Hole(t, tr, t.used + tr.mn)
  {
    var i := t.used + tr.mn;
    assert t.slots[i] == Empty;
  }

  /** An insertion at a duplicate or a hole leaves every lookup right. */
  lemma FoundIsRight(t: Table, tr: Transaction, i: int, placed: seq<Placed>)
    requires TableOk(t) && Distinct(tr.entries) && Extremes(tr) && Packed(t, placed)
    requires t.used <= |t.slots| && (Dup(t, tr, i) || Hole(t, tr, i))
    ensures var u := Written(t, tr, i, |tr.entries|);
      InBounds(t, tr, i) && TableOk(u) && Packed(u, placed + [Placed(i - tr.mn, tr.entries)])
  {
    hide TableOk, Distinct, Extremes, Written, Find, Owned;
    if Dup(t, tr, i) {
      DupIsExact(t, tr, i);
      Rewritten(t, tr, i, |tr.entries|);
      NotFree(t, tr, i - tr.mn);
    } else {
      FreeIsRight(t, tr, i, placed);
    }
  }

  /**
   When neither is found the transaction goes to the end of the search. That is right exactly when its least
   lookahead is not 0 (else it lies beyond the array) and the offset is free.
   */
  lemma EndOfSearch(t: Table, tr: Transaction, placed: seq<Placed>)
    requires TableOk(t) && Distinct(tr.entries) && Extremes(tr) && Packed(t, placed) && t.used + tr.mx + 1 < |t.slots|
    ensures var i := |t.slots| - tr.mx;
      var u := Written(t, tr, i, |tr.entries|);
      InBounds(t, tr, i) && Packed(u, placed + [Placed(i - tr.mn, tr.entries)]) <==> tr.mn > 0 && Free(t, i - tr.mn)
  {
    hide TableOk, Distinct, Written, Find;
    var i := |t.slots| - tr.mx;
    var u, o := Written(t, tr, i, |tr.entries|), i - tr.mn;
    if tr.mn > 0 {
      forall j | 0 <= j < |tr.entries| ensures 0 <= At(tr, i, j) < |t.slots| && t.slots[At(tr, i, j)].lookahead < 0 {
        FreshSlot(t, At(tr, i, j));
      }
      if Free(t, o) {
        FreeIsRight(t, tr, i, placed);
      } else {
        var x :| x >= 0 && !Lookup(t, o, x).Nothing?;
        TableUsed(t);
        WrittenElsewhere(t, tr, i, |tr.entries|, o + x);
        WrittenTable(t, tr, i, |tr.entries|);
        assert Lookup(u, o, x) == Lookup(t, o, x);
        assert forall j :: 0 <= j < |tr.entries| ==> At(tr, i, j) != o + x;
        var j := EntryFrom(tr.entries, x);
        assert !Exact(u, o, tr.entries);
        var placed' := placed + [Placed(o, tr.entries)];
        assert placed'[|placed|] == Placed(o, tr.entries);
      }
    } else {
      var j :| 0 <= j < |tr.entries| && tr.entries[j].lookahead == tr.mx;
      assert At(tr, i, j) == |t.slots|;
    }
  }

  // ----- the search can fail -----

  /** The table after `n` rows that each have one action only, on lookahead 1, and no two the same. */
  function Rows(n: nat): (t: Table)
    ensures |t.slots| == 22 && t.used == n
    ensures forall i :: 0 <= i < 22 ==> t.slots[i] == if i < n then Slot(1, 16 - i) else Empty
  {
    Table(seq(22, i => if i < n then Slot(1, 16 - i) else Empty), n)
  }

  function Single(lookahead: nat, action: int): Transaction {
    Transaction([Slot(lookahead, action)], lookahead, action, lookahead)
  }

  /** The first of them makes the room. */
  function FirstTable(n: nat): Table {
    if n == 0 then Table([], 0) else Rows(n)
  }

  /** Such rows are put one after the other, each at its own number. */
  lemma RowsNext(n: nat, offset: int, u: Table)
    requires n < 20
    ensures Inserted(FirstTable(n), Single(1, 16 - n), offset, u) <==> offset == n - 1 && u == Rows(n + 1)
  {
    var t, tr := Grown(FirstTable(n), Single(1, 16 - n)), Single(1, 16 - n);
    forall k ensures !Dup(t, tr, k) {}
    forall k | Hole(t, tr, k) ensures n <= k {}
    assert t.slots[n] == Empty && At(tr, n, 0) == n;
    assert Hole(t, tr, n);
    assert Written(t, tr, n, 0) == t;
    assert Written(t, tr, n, 1).slots == Rows(n + 1).slots;
  }

  /** The transactions are inserted one after the other, beginning with the empty table. */
  ghost predicate Insertions(trs: seq<Transaction>, offsets: seq<int>, tables: seq<Table>) {
    |offsets| == |trs| && |tables| == |trs| + 1 && tables[0] == Table([], 0) &&
    forall k :: 0 <= k < |trs| ==> Inserted(tables[k], trs[k], offsets[k], tables[k + 1])
  }

  /** One of the scans succeeds. */
  ghost predicate Found(t: Table, tr: Transaction) {
    var g := Grown(t, tr);
    g.used <= |g.slots| && exists k :: Dup(g, tr, k) || Hole(g, tr, k)
  }

  /** An insertion whose search succeeds keeps what the look-ups at every offset in use find. */
  lemma InsertionKeeps(t: Table, tr: Transaction, o: int, u: Table, offset: int, x: int)
    requires TableOk(t) && Distinct(tr.entries) && Extremes(tr) && Inserted(t, tr, o, u) && Found(t, tr)
    requires x >= 0 && Lookup(t, offset, x).Is?
    ensures TableOk(u) && Lookup(u, offset, x) == Lookup(t, offset, x)
  {
    hide TableOk, Distinct, Extremes, Written, Owned, FitsAt;
    var g, i := Grown(t, tr), o + tr.mn;
    GrownOk(t, tr);
    assert Lookup(g, offset, x) == Lookup(t, offset, x);
    WrittenTable(g, tr, i, |tr.entries|);
    if Dup(g, tr, i) {
      Rewritten(g, tr, i, |tr.entries|);
    } else {
      assert Hole(g, tr, i);
      if offset != o { OthersStay(g, tr, i, offset, x); }
    }
  }

  /** The rows are collected and inserted one after the other. */
  ghost predicate Packing(rows: seq<seq<Slot>>, trs: seq<Transaction>, offsets: seq<int>, tables: seq<Table>) {
    |trs| == |rows| && Insertions(trs, offsets, tables) &&
    forall k :: 0 <= k < |rows| ==> trs[k].entries == rows[k] && Extremes(trs[k])
  }

  /** A place is found for each row in turn. */
  ghost predicate Fits(rows: seq<seq<Slot>>) {
    exists trs, offsets, tables ::
      Packing(rows, trs, offsets, tables) && forall k :: 0 <= k < |rows| ==> Found(tables[k], trs[k])
  }

  lemma ExtremesOnce(tr: Transaction, tr': Transaction)
    requires tr.entries == tr'.entries && Distinct(tr.entries) && Extremes(tr) && Extremes(tr')
    ensures tr == tr'
  {}

  /** An insertion leaves one table. */
  lemma InsertedOnce(t: Table, tr: Transaction, o: int, u: Table, o': int, u': Table)
    requires Inserted(t, tr, o, u) && Inserted(t, tr, o', u')
    ensures o == o' && u == u'
  {
    hide Dup, Hole, Written;
    var g := Grown(t, tr);
    if k :| Dup(g, tr, k) {
    } else if k :| Hole(g, tr, k) {
    }
  }

  /** Packing the same rows goes through the same tables. */
  lemma {:induction false} SameTables(rows: seq<seq<Slot>>, trs: seq<Transaction>, offsets: seq<int>,
                                      tables: seq<Table>, trs': seq<Transaction>, offsets': seq<int>,
                                      tables': seq<Table>, n: nat)
    requires n <= |rows| && forall k :: 0 <= k < |rows| ==> Distinct(rows[k])
    requires Packing(rows[..n], trs, offsets, tables) && Packing(rows, trs', offsets', tables')
    ensures tables[n] == tables'[n]
    decreases n
  {
    hide Inserted, Extremes, Distinct;
    if n > 0 {
      assert rows[..n][..n - 1] == rows[..n - 1];
      PackingLess(rows[..n], trs, offsets, tables, n - 1);
      SameTables(rows, trs[..n - 1], offsets[..n - 1], tables[..n], trs', offsets', tables', n - 1);
      assert rows[..n][n - 1] == rows[n - 1];
      ExtremesOnce(trs[n - 1], trs'[n - 1]);
      InsertedOnce(tables[n - 1], trs[n - 1], offsets[n - 1], tables[n], offsets'[n - 1], tables'[n]);
    }
  }

  lemma PackingLess(rows: seq<seq<Slot>>, trs: seq<Transaction>, offsets: seq<int>, tables: seq<Table>, n: nat)
    requires n <= |rows| && Packing(rows, trs, offsets, tables)
    ensures Packing(rows[..n], trs[..n], offsets[..n], tables[..n + 1])
  {
    hide Inserted, Extremes;
  }

  lemma PackingMore(rows: seq<seq<Slot>>, trs: seq<Transaction>, offsets: seq<int>, tables: seq<Table>, n: nat,
                    tr: Transaction, o: int, u: Table)
    requires n < |rows| && Packing(rows[..n], trs, offsets, tables)
    requires tr.entries == rows[n] && Extremes(tr) && Inserted(tables[n], tr, o, u)
    ensures Packing(rows[..n + 1], trs + [tr], offsets + [o], tables + [u])
  {
    hide Inserted, Extremes;
    assert rows[..n + 1] == rows[..n] + [rows[n]];
  }

  /** When one search fails, the rows do not fit. */
  lemma FailedSearch(rows: seq<seq<Slot>>, trs: seq<Transaction>, offsets: seq<int>, tables: seq<Table>, n: nat,
                     tr: Transaction)
    requires n < |rows| && forall k :: 0 <= k < |rows| ==> Distinct(rows[k])
    requires Packing(rows[..n], trs, offsets, tables)
    requires tr.entries == rows[n] && Extremes(tr) && !Found(tables[n], tr)
    ensures !Fits(rows)
  {
    hide Inserted, Extremes, Distinct, Found;
    forall trs', offsets', tables' | Packing(rows, trs', offsets', tables') ensures !Found(tables'[n], trs'[n]) {
      SameTables(rows, trs, offsets, tables, trs', offsets', tables', n);
      ExtremesOnce(tr, trs'[n]);
    }
  }

  /** Fifteen rows whose only action is on lookahead 1, then one whose only action is on lookahead 5. */
  function Sixteen(): (trs: seq<Transaction>)
    ensures |trs| == 16
  {
    seq(15, k requires 0 <= k => Single(1, 16 - k)) + [Single(5, 1)]
  }

  lemma {:induction false} FirstRows(offsets: seq<int>, tables: seq<Table>, n: nat)
    requires |offsets| >= n && |tables| > n && tables[0] == Table([], 0) && n <= 15
    requires forall k :: 0 <= k < n ==> Inserted(tables[k], Single(1, 16 - k), offsets[k], tables[k + 1])
    ensures tables[n] == FirstTable(n)
    ensures forall k :: 0 <= k < n ==> offsets[k] == k - 1
  {
    hide Inserted, Rows;
    if n > 0 {
      FirstRows(offsets, tables, n - 1);
      RowsNext(n - 1, offsets[n - 1], tables[n]);
    }
  }

  /** The table of the fifteen with the sixteenth action written into slot 17. */
  function Spoiled(): Table {
    Table(Rows(15).slots[17 := Slot(5, 1)], 18)
  }

  /** After the fifteen, both scans fail for the sixteenth. */
  lemma NoPlaceLeft(offset: int, u: Table)
    ensures Inserted(Rows(15), Single(5, 1), offset, u) <==> offset == 12 && u == Spoiled()
    ensures forall k :: !Dup(Rows(15), Single(5, 1), k) && !Hole(Rows(15), Single(5, 1), k)
    ensures Grown(Rows(15), Single(5, 1)) == Rows(15)
  {
    var t, tr := Rows(15), Single(5, 1);
    forall k ensures !Dup(t, tr, k) {}
    forall k ensures !Hole(t, tr, k) {
      if k == 15 || k == 16 { assert t.slots[k - 4].lookahead == (k - 4) + 5 - k; }
    }
    assert At(tr, 17, 0) == 17;
    assert Written(t, tr, 17, 0) == t;
    assert Written(t, tr, 17, 1) == Spoiled();
  }

  /** The sixteen insertions can be made, so that what is said of every run of them is said of one. */
  lemma SixteenInserted() returns (offsets: seq<int>, tables: seq<Table>)
    ensures Insertions(Sixteen(), offsets, tables)
  {
    hide Inserted, Rows, Spoiled;
    offsets := seq(15, k => k - 1) + [12];
    tables := seq(16, k requires 0 <= k => FirstTable(k)) + [Spoiled()];
    forall k | 0 <= k < 16 ensures Inserted(tables[k], Sixteen()[k], offsets[k], tables[k + 1]) {
      if k < 15 {
        RowsNext(k, k - 1, Rows(k + 1));
      } else {
        NoPlaceLeft(12, Spoiled());
      }
    }
  }

  /**
   The search can fail, and then spoils what was inserted before: any run of insertions that begins with these sixteen
   gives the last of them the offset of row 13, which has no action on lookahead 5 and then finds one there.
   */
  lemma SearchCanFail(trs: seq<Transaction>, offsets: seq<int>, tables: seq<Table>)
    requires |trs| >= 16 && trs[..16] == Sixteen() && Insertions(trs, offsets, tables)
    ensures !Found(tables[15], trs[15]) && tables[16] == Spoiled()
    ensures offsets[13] == offsets[15] == 12
    ensures Find(trs[13].entries, 5) == Lookup(tables[15], 12, 5) == Nothing
    ensures Lookup(tables[16], 12, 5) == Is(1)
  {
    hide Inserted, Dup, Hole, Grown;
    forall k | 0 <= k < 15 ensures Inserted(tables[k], Single(1, 16 - k), offsets[k], tables[k + 1]) {
      assert trs[k] == trs[..16][k] == Single(1, 16 - k);
    }
    FirstRows(offsets, tables, 15);
    assert trs[15] == trs[..16][15] == Single(5, 1) && trs[13] == trs[..16][13] == Single(1, 3);
    NoPlaceLeft(offsets[15], tables[16]);
  }

  /** The scan for a hole has passed over the places below `n`. */
  ghost predicate NoHoleBelow(t: Table, tr: Transaction, n: int)
    requires t.used <= |t.slots|
  {
    forall k :: k < n ==> !Hole(t, tr, k)
  }

  lemma HolesEnd(t: Table, tr: Transaction, n: int)
    requires t.used <= |t.slots| && NoHoleBelow(t, tr, n) && n >= |t.slots| - tr.mx
    ensures forall k :: !Hole(t, tr, k)
  {}

  // ----- the table as it is changed -----

  class ActTab {
    var slots: seq<Slot>
    var used: nat
    var entries: seq<Slot>
    var mn: int
    var mnAction: int
    var mx: int

    ghost predicate Valid()
      reads this
    {
      TableOk(Contents()) && Distinct(entries) && (entries != [] ==> Extremes(Pending()))
    }

    function Contents(): Table
      reads this
    {
      Table(slots, used)
    }

    function Pending(): Transaction
      reads this
    {
      Transaction(entries, mn, mnAction, mx)
    }

    constructor ()
      ensures Valid() && Contents() == Table([], 0) && entries == []
    {
      slots, used, entries, mn, mnAction, mx := [], 0, [], 0, 0, 0;
    }

    /** `acttab_action`. */
    method Action(lookahead: int, action: int)
      requires Valid() && lookahead >= 0 && forall j :: 0 <= j < |entries| ==> entries[j].lookahead != lookahead
      modifies this
      ensures Valid() && Contents() == old(Contents()) && entries == old(entries) + [Slot(lookahead, action)]
    {
      if entries == [] {
        mx, mn, mnAction := lookahead, lookahead, action;
      } else {
        if mx < lookahead { mx := lookahead; }
        if mn > lookahead { mn, mnAction := lookahead, action; }
      }
      ghost var was := entries;
      entries := entries + [Slot(lookahead, action)];
      assert entries[|was|] == Slot(lookahead, action);
      assert forall j :: 0 <= j < |was| ==> entries[j] == was[j];
    }

    /** The scan for a duplicate, from the end of the table down. */
    method FindDup() returns (i: int)
      requires Valid() && entries != []
      ensures used <= |slots|
      ensures if i >= 0 then Dup(Contents(), Pending(), i) && forall k :: Dup(Contents(), Pending(), k) ==> k <= i
              else forall k :: !Dup(Contents(), Pending(), k)
    {
      var tr, t := Pending(), Contents();
      i := used - 1;
      while i >= 0
        invariant -1 <= i < used && forall k :: Dup(t, tr, k) ==> k <= i
      {
        if slots[i].lookahead == mn && slots[i].action == mnAction {
          var j := 0;
          while j < |entries|
            invariant j <= |entries| && Matches(t, tr, i, j)
          {
            var k := entries[j].lookahead - mn + i;
            if k < 0 || k >= used || entries[j] != slots[k] { break; }
            j := j + 1;
          }
          if j == |entries| {
            var n := 0;
            for l := 0 to used
              invariant n == Owned(t, i - mn, l)
            {
              if slots[l].lookahead >= 0 && slots[l].lookahead == l + mn - i { n := n + 1; }
            }
            if n == |entries| { return; }
          }
        }
        i := i - 1;
      }
    }

    /** Whether the slots of all entries are free. */
    method AllFit(i: nat) returns (ok: bool)
      requires Valid() && entries != [] && i + mx < |slots|
      ensures ok <==> FitsAt(Contents(), Pending(), i, |entries|)
    {
      var j := 0;
      while j < |entries|
        invariant j <= |entries| && FitsAt(Contents(), Pending(), i, j)
      {
        var k := entries[j].lookahead - mn + i;
        assert k == At(Pending(), i, j);
        if slots[k].lookahead >= 0 { return false; }
        j := j + 1;
      }
      ok := true;
    }

    /** Whether nothing in the table belongs to the offset. */
    method OffsetFree(i: nat) returns (ok: bool)
      requires Valid()
      ensures used <= |slots| && (ok <==> NotInUse(Contents(), Pending(), i, used))
    {
      var l := 0;
      while l < used
        invariant l <= used && NotInUse(Contents(), Pending(), i, l)
      {
        if slots[l].lookahead == l + mn - i { return false; }
        l := l + 1;
      }
      ok := true;
    }

    /** The scan for a hole; the end of the search when there is none. */
    method FindHole() returns (i: nat)
      requires Valid() && entries != []
      ensures used <= |slots|
      ensures if exists k :: Hole(Contents(), Pending(), k) then
                Hole(Contents(), Pending(), i) && forall k :: Hole(Contents(), Pending(), k) ==> i <= k
              else i == if |slots| > mx then |slots| - mx else 0
    {
      hide FitsAt, NotInUse, Distinct, Extremes;
      ghost var t, tr := Contents(), Pending();
      ExtremesNatural(tr);
      i := 0;
      while i < |slots| - mx
        invariant i == 0 || i <= |slots| - mx
        invariant NoHoleBelow(t, tr, i)
        decreases |slots| - mx - i
      {
        if slots[i].lookahead < 0 {
          var fits := AllFit(i);
          if fits {
            var free := OffsetFree(i);
            if free {
              assert Hole(t, tr, i);
              return;
            }
          }
        }
        i := i + 1;
      }
      HolesEnd(t, tr, i);
    }

    /** Both scans. */
    method Choose() returns (i: nat, found: bool)
      requires Valid() && entries != []
      ensures used <= |slots| && Chosen(Contents(), Pending(), i)
      ensures found <==> exists k :: Dup(Contents(), Pending(), k) || Hole(Contents(), Pending(), k)
    {
      hide Dup;
      var k := FindDup();
      if k >= 0 {
        i, found := k, true;
      } else {
        i := FindHole();
        found := i < |slots| - mx;
      }
    }

    /**
     `acttab_insert`. `overrun` tells that a slot beyond the array would be written; nothing is written there.
     `found` tells whether one of the scans succeeded; if so, every lookup of every transaction is right.
     */
    method Insert(ghost placed: seq<Placed>) returns (offset: int, overrun: bool, found: bool)
      requires Valid() && entries != [] && Packed(Contents(), placed)
      modifies this
      ensures Valid() && entries == []
      ensures Inserted(old(Contents()), old(Pending()), offset, Contents())
      ensures var t, tr := Grown(old(Contents()), old(Pending())), old(Pending());
        t.used <= |t.slots| &&
        (overrun <==> !InBounds(t, tr, offset + tr.mn)) &&
        (found <==> exists k :: Dup(t, tr, k) || Hole(t, tr, k)) &&
        (found ==> !overrun && Packed(Contents(), placed + [Placed(offset, tr.entries)]))
    {
      hide TableOk, Distinct, Extremes, Written, Dup, Hole, Chosen, Packed;
      ghost var t, tr := Grown(Contents(), Pending()), Pending();
      GrownOk(Contents(), tr);
      GrownPacked(Contents(), tr, placed);
      if used + mx + 1 >= |slots| {
        ExtremesNatural(tr);
        slots := slots + Empties(used + mx + 21);
      }
      assert Contents() == t;
      var i: int;
      i, found := Choose();
      ChosenIsRight(t, tr, i, placed);
      overrun := false;
      WrittenNone(t, tr, i);
      for j := 0 to |entries|
        invariant entries == tr.entries && mn == tr.mn && Contents() == Written(t, tr, i, j)
        invariant overrun <==> exists l :: 0 <= l < j && !(0 <= At(tr, i, l) < |t.slots|)
      {
        WrittenStep(t, tr, i, j);
        var k := entries[j].lookahead - mn + i;
        if 0 <= k < |slots| {
          slots := slots[k := entries[j]];
          if k >= used { used := k + 1; }
        } else {
          overrun := true;
        }
      }
      entries := [];
      offset := i - mn;
      NothingPending();
      WrittenTable(t, tr, i, |tr.entries|);
    }
  }

  lemma ChosenIsRight(t: Table, tr: Transaction, i: int, placed: seq<Placed>)
    requires TableOk(t) && Distinct(tr.entries) && Extremes(tr) && Packed(t, placed)
    requires t.used <= |t.slots| && Chosen(t, tr, i)
    ensures (exists k :: Dup(t, tr, k) || Hole(t, tr, k)) ==>
      var u := Written(t, tr, i, |tr.entries|);
      InBounds(t, tr, i) && TableOk(u) && Packed(u, placed + [Placed(i - tr.mn, tr.entries)])
  {
    hide TableOk, Distinct, Extremes, Dup, Hole, Packed;
    if exists k :: Dup(t, tr, k) || Hole(t, tr, k) { FoundIsRight(t, tr, i, placed); }
  }

  lemma NothingPending()
    ensures Distinct([])
  {}

  lemma GrownPacked(t: Table, tr: Transaction, placed: seq<Placed>)
    requires TableOk(t) && Extremes(tr) && Packed(t, placed)
    ensures Packed(Grown(t, tr), placed)
  {
    hide TableOk, Extremes, Lookup;
    GrownOk(t, tr);
    var u := Grown(t, tr);
    forall k | 0 <= k < |placed|
      ensures Exact(u, placed[k].offset, placed[k].entries) && !Free(u, placed[k].offset)
    {
      var o := placed[k].offset;
      var y :| y >= 0 && !Lookup(t, o, y).Nothing?;
      assert Lookup(u, o, y) == Lookup(t, o, y);
    }
  }

  lemma ExtremesNatural(tr: Transaction)
    requires Extremes(tr)
    ensures tr.mx >= 0
  {}

  lemma WrittenNone(t: Table, tr: Transaction, i: int)
    ensures Written(t, tr, i, 0) == t
  {}

  lemma WrittenStep(t: Table, tr: Transaction, i: int, n: nat)
    requires n < |tr.entries|
    ensures var u, k := Written(t, tr, i, n), At(tr, i, n);
      Written(t, tr, i, n + 1) ==
      if 0 <= k < |u.slots| then Table(u.slots[k := tr.entries[n]], if k >= u.used then k + 1 else u.used) else u
  {}
}
