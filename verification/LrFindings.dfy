/**
 A grammar on which a search of the action table fails: `s ::= A A A A A A A A A A A A A A A A E.`, with the tokens
 numbered from 1 for `A` to 5 for `E`. The generated parser then shifts an `E` after fourteen of the sixteen.
 */
module LrFindings {
  import opened Grammars
  import opened LrDriver
  import opened LrActions
  import opened LrCompress
  import opened ActionTable
  import opened LrTables
  import opened LrGenerator
  import opened LrLookahead
  import opened LrAcceptance
  import opened LrOrder
  import opened MergeSort
  import opened Lemon
  import Lr0

  // ----- the grammar and its states -----

  function Word(): (w: seq<Item>)
    ensures |w| == 17 && forall i :: 0 <= i < 17 ==> w[i] == One(Letter(i))
  {
    seq(17, i requires 0 <= i => One(Letter(i)))
  }

  function Letter(i: nat): nat { if i < 16 then 1 else 5 }

  function Chain(): Grammar { Grammar(6, 7, [Rule(6, Word())], 6) }

  function ChainState(k: nat): Lr0.State {
    Lr0.State([Config(0, k)], [Config(0, k)], if k < 17 then [Lr0.Shift(One(Letter(k)), k + 1)] else [])
  }

  function ChainStates(): (states: seq<Lr0.State>)
    ensures |states| == 18 && forall k :: 0 <= k < 18 ==> states[k] == ChainState(k)
  {
    seq(18, k requires 0 <= k => ChainState(k))
  }

  lemma ChainValid()
    ensures Chain().Valid()
  {}

  lemma OneElem<T>(x: T)
    ensures Lr0.Elems([x]) == {x}
  {
    assert [x][0] == x;
  }

  lemma OnlyLetter(k: nat, x: Item)
    requires k <= 17
    ensures Before(Chain(), Config(0, k), x) <==> k < 17 && x == One(Letter(k))
  {}

  lemma ChainShape(k: nat)
    requires k < 18
    ensures Lr0.Shape(Chain(), ChainStates(), k) && Lr0.Complete(Chain(), ChainStates()[k])
  {
    hide Before, Word;
    var g, c, s := Chain(), Config(0, k), ChainState(k);
    OneElem(c);
    forall x ensures Before(g, c, x) <==> k < 17 && x == One(Letter(k)) { OnlyLetter(k, x); }
    assert Lr0.Closed(g, {c});
    if k < 17 {
      OneElem(Config(0, k + 1));
      assert Lr0.Moved(g, {c}, One(Letter(k))) == {Config(0, k + 1)};
      assert Lr0.ShiftOk(g, ChainStates(), k, 0);
      assert s.shifts[0].item == One(Letter(k));
    }
  }

  lemma ChainBuilt()
    ensures Lr0.Built(Chain(), ChainStates())
  {
    hide Lr0.Shape, Lr0.Complete;
    var g, states := Chain(), ChainStates();
    forall i | 0 <= i < 18 ensures Lr0.Shape(g, states, i) && Lr0.Complete(g, states[i]) { ChainShape(i); }
    forall i, j | 0 <= i < j < 18 ensures Lr0.Elems(states[i].basis) != Lr0.Elems(states[j].basis) {
      OneElem(Config(0, i));
      OneElem(Config(0, j));
      assert Config(0, i) in {Config(0, i)};
    }
    OneElem(Config(0, 0));
    assert Lr0.Starts(g) == {Config(0, 0)};
  }

  // ----- its actions -----

  /** The states but the first come in falling order, as all have as many actions. */
  function ChainOrder(): (order: seq<nat>)
    ensures |order| == 18 && order[0] == 0 && forall i :: 0 < i < 18 ==> order[i] == 18 - i
  {
    seq(18, i requires 0 <= i < 18 => if i == 0 then 0 else 18 - i)
  }

  function ChainNum(q: nat): nat { if q == 0 || q > 17 then 0 else 18 - q }

  function ChainRun(): Run {
    Run(ChainStates(), (q: nat) => (c: Config) => {0}, Precedence((s: nat) => -1, (s: nat) => UNK, (r: nat) => None),
        (q: nat) => (i: nat) => i, (q: nat) => (0, 0), ChainOrder(), ChainNum)
  }

  /** What state `q` does first: it shifts a letter, or reduces at the end of the input. */
  function Deed(q: nat): Action {
    if q < 17 then Action(Letter(q), SHIFT, q + 1, 0) else Action(0, REDUCE, 0, 0)
  }

  /** The list of a state: its deed, and in the first state the acceptance. */
  ghost predicate ListIs(q: nat, acts: seq<Action>) {
    if q == 0 then acts == [Deed(0), Action(6, ACCEPT, 0, 1)] || acts == [Action(6, ACCEPT, 0, 1), Deed(0)]
    else acts == [Deed(q)]
  }

  lemma {:induction false} EndOnly(n: nat)
    ensures TokenDrafts(0, {0}, n) == if n == 0 then [] else [Draft(0, REDUCE, 0)]
  {
    if n > 0 { EndOnly(n - 1); }
  }

  lemma ChainDrafts(q: nat)
    requires q < 18
    ensures RawOf(Chain(), ChainRun(), q) == [Deed(q)] + if q == 0 then [Action(6, ACCEPT, 0, 1)] else []
  {
    var g, s, fws := Chain(), ChainState(q), (c: Config) => {0};
    EndOnly(6);
    var c := Config(0, q);
    assert [c][..0] == [];
    assert ReduceDrafts(g, [], fws) == [];
    assert ReduceDrafts(g, [c], fws) == if q == 17 then [Draft(0, REDUCE, 0)] else [];
    if q < 17 {
      assert s.shifts[..0] == [];
      assert ShiftDrafts(s.shifts) == [Draft(Letter(q), SHIFT, q + 1)];
    }
    assert ChainRun().fws(q) == fws;
  }

  lemma SortedOne(a: Action)
    ensures SortActions([a]) == [a]
  {
    hide SortActions, Sorted, Grouped;
    Plenty();
    SortActionsOk([a]);
    var r := SortActions([a]);
    assert r[0] in r;
  }

  lemma Plenty()
    ensures 2 < Pow2(LISTSIZE)
  {}

  lemma SortedTwo(a: Action, b: Action)
    requires a != b
    ensures SortActions([a, b]) == [a, b] || SortActions([a, b]) == [b, a]
  {
    hide SortActions, Sorted, Grouped;
    Plenty();
    SortActionsOk([a, b]);
    var r := SortActions([a, b]);
    assert r == [r[0], r[1]] && r[0] in r && r[1] in r;
    assert multiset(r) == multiset{r[0], r[1]};
  }

  lemma ResolvedOne(p: Precedence, a: Action)
    ensures Resolved(p, [a], 0) == [a]
  {
    assert Against(p, [a], 0, 1) == [a];
    assert Resolved(p, [a], 1) == [a];
  }

  lemma ResolvedTwo(p: Precedence, a: Action, b: Action)
    requires a.sp != b.sp
    ensures Resolved(p, [a, b], 0) == [a, b]
  {
    assert Against(p, [a, b], 0, 1) == [a, b];
    assert Against(p, [a, b], 1, 2) == [a, b];
    assert Resolved(p, [a, b], 2) == [a, b];
    assert Resolved(p, [a, b], 1) == [a, b];
  }

  lemma ChainResolved(q: nat)
    requires q < 18
    ensures ListIs(q, ResolvedOf(Chain(), ChainRun(), q)) && |RawOf(Chain(), ChainRun(), q)| < Pow2(LISTSIZE)
  {
    hide RawOf, SortActions, Resolved, Deed;
    ChainDrafts(q);
    Plenty();
    var p := ChainRun().prec;
    if q == 0 {
      var a, b := Deed(0), Action(6, ACCEPT, 0, 1);
      DeedIs(0);
      SortedTwo(a, b);
      ResolvedTwo(p, a, b);
      ResolvedTwo(p, b, a);
      assert [a] + [b] == [a, b];
    } else {
      SortedOne(Deed(q));
      ResolvedOne(p, Deed(q));
      assert [Deed(q)] + [] == [Deed(q)];
    }
  }

  lemma DeedIs(q: nat)
    ensures Deed(q).sp < 6 && (q < 17 ==> Deed(q).kind == SHIFT) && (q >= 17 ==> Deed(q).kind == REDUCE)
  {}

  /** No reduction but by the start rule, so there is no default. */
  lemma ChainList(q: nat)
    requires q < 18
    ensures ListOk(Chain(), ChainRun(), q) && ListIs(q, PackedOf(Chain(), ChainRun(), q))
  {
    hide RawOf, ResolvedOf;
    ChainResolved(q);
    var acts := ResolvedOf(Chain(), ChainRun(), q);
    forall s | !StartRule(Chain())(s) ensures CountOf(acts, s) == 0 {
      forall a | a in acts ensures !IsReduce(a, s) {}
      CountPositive(acts, s);
    }
  }

  /** The end of the input, and nothing else, follows in every state. */
  lemma {:induction false} ChainAhead(k: nat)
    requires k < 18
    ensures Lookahead(Chain(), Lr0.AutomatonOf(ChainStates()), Place(k, Config(0, k)), 0)
    decreases k
  {
    hide Generated, Lookahead, Lr0.AutomatonOf, Route;
    var g, a := Chain(), Lr0.AutomatonOf(ChainStates());
    ChainValid();
    ChainPlace(k, Config(0, k));
    if k == 0 {
      StartAtEnd();
      GeneratedAhead(g, a, Place(0, Config(0, 0)), 0);
    } else {
      ChainAhead(k - 1);
      ChainGoto(k - 1);
      PassedAhead(g, a, Place(k - 1, Config(0, k - 1)), Place(k, Config(0, k)));
      assert 0 in Ahead(g, a, Place(k - 1, Config(0, k - 1)));
    }
  }

  lemma StartAtEnd()
    ensures Generated(Chain(), Lr0.AutomatonOf(ChainStates()), Place(0, Config(0, 0)), 0)
  {}

  lemma ChainPlace(k: nat, c: Config)
    requires k < 18
    ensures InStates(Lr0.AutomatonOf(ChainStates()), Place(k, c)) <==> c == Config(0, k)
  {
    OneElem(Config(0, k));
    assert ChainStates()[k] == ChainState(k);
  }

  lemma ChainGoto(k: nat)
    requires k < 17
    ensures PassesOn(Chain(), Lr0.AutomatonOf(ChainStates()), Place(k, Config(0, k)), Place(k + 1, Config(0, k + 1)))
  {
    assert ChainStates()[k] == ChainState(k);
    Lr0.GotoIs(ChainState(k).shifts);
  }

  lemma ChainFollow()
    ensures FollowOk(Chain(), ChainRun())
  {
    hide Lookahead, Lr0.AutomatonOf;
    var g, a := Chain(), Lr0.AutomatonOf(ChainStates());
    ChainValid();
    forall q, c, t: nat | InStates(a, Place(q, c))
      ensures t in ChainRun().fws(q)(c) <==> Lookahead(g, a, Place(q, c), t)
    {
      StateBelow(q, c);
      ChainPlace(q, c);
      ChainAhead(q);
      if Lookahead(g, a, Place(q, c), t) { StartBeforeEnd(g, a, Place(q, c), t); }
    }
  }

  lemma StateBelow(q: nat, c: Config)
    requires InStates(Lr0.AutomatonOf(ChainStates()), Place(q, c))
    ensures q < 18
  {}

  lemma ChainReordered()
    ensures Reordered(ChainRun())
  {}

  lemma ChainRunOk()
    ensures RunOk(Chain(), ChainRun())
  {
    hide ListOk, Lr0.Built, Reordered, Grammar.Valid;
    ChainValid();
    ChainBuilt();
    ChainReordered();
    forall q | 0 <= q < 18 ensures ListOk(Chain(), ChainRun(), q) { ChainList(q); }
  }

  // ----- its rows -----

  function ChainSizes(): Sizes { Sizes(18, 1, 6, 7) }

  /** The one slot of each row. */
  function DeedSlot(num: nat -> nat, q: nat): Slot {
    if q < 17 then Slot(Letter(q), num(q + 1)) else Slot(0, 18)
  }

  lemma RowOfOne(num: nat -> nat, a: Action, lo: nat, hi: nat)
    requires Emitted(a)
    ensures Row(ChainSizes(), num, [a], lo, hi) ==
            if lo <= a.sp < hi then [Slot(a.sp, CodeOf(ChainSizes(), num, a))] else []
  {
    assert [a][..0] == [];
  }

  lemma RowOfTwo(num: nat -> nat, a: Action, b: Action, lo: nat, hi: nat)
    requires Emitted(a) && Emitted(b)
    ensures Row(ChainSizes(), num, [a, b], lo, hi) ==
            Row(ChainSizes(), num, [a], lo, hi) + Row(ChainSizes(), num, [b], lo, hi)
  {
    assert [a, b][..1] == [a] && [b][..0] == [];
  }

  /** Each state has one token action, and the first state the acceptance besides. */
  lemma ListRows(num: nat -> nat, q: nat, acts: seq<Action>)
    requires q < 18 && ListIs(q, acts)
    ensures Row(ChainSizes(), num, acts, 0, 6) == [DeedSlot(num, q)]
    ensures Row(ChainSizes(), num, acts, 6, 7) == if q == 0 then [Slot(6, 20)] else []
  {
    hide Row;
    DeedIs(q);
    var a, b := Deed(q), Action(6, ACCEPT, 0, 1);
    RowOfOne(num, a, 0, 6);
    RowOfOne(num, a, 6, 7);
    if q == 0 {
      RowOfOne(num, b, 0, 6);
      RowOfOne(num, b, 6, 7);
      RowOfTwo(num, a, b, 0, 6);
      RowOfTwo(num, a, b, 6, 7);
      RowOfTwo(num, b, a, 0, 6);
      RowOfTwo(num, b, a, 6, 7);
    }
  }

  lemma ChainInOrder()
    ensures InOrder(ChainSizes(), Unordered(Chain(), ChainRun()), ChainOrder())
  {
    hide PackedOf, Row, ListIs;
    var z, lists, order := ChainSizes(), Unordered(Chain(), ChainRun()), ChainOrder();
    forall q | 0 <= q < 18 ensures Choices(z, lists, q, 0, 6) == 1
    ensures Choices(z, lists, q, 6, 7) == if q == 0 then 1 else 0
    {
      ChainList(q);
      ListRows((q: nat) => q, q, lists[q]);
    }
    var rest := order[1..];
    forall i, j | 0 <= i < j < |rest| ensures StateLess(z, lists)(rest[i], rest[j]) {
      assert rest[i] == 17 - i && rest[j] == 17 - j;
    }
    forall q: nat ensures q in order <==> q < 18 {
      if q < 18 { assert order[ChainNum(q)] == q; }
    }
  }

  /** The rows in the order they are packed: the token rows from the last state down, but state 0's come at the end. */
  function ChainRows(): (axs: seq<Ax>)
    ensures |axs| == 19 && axs[17] == Ax(0, false) && axs[18] == Ax(0, true)
    ensures forall k :: 0 <= k < 17 ==> axs[k] == Ax(17 - k, true)
  {
    seq(19, k requires 0 <= k < 19 => if k < 17 then Ax(17 - k, true) else Ax(0, k == 18))
  }

  function ChainLists(): (lists: seq<seq<Action>>)
    ensures |lists| == 18 && forall i :: 0 <= i < 18 ==> lists[i] == PackedOf(Chain(), ChainRun(), ChainOrder()[i])
  {
    Lists(Chain(), ChainRun())
  }

  lemma RowOfAx(x: Ax)
    requires x.state < 18
    ensures RowAt(ChainSizes(), ChainNum, ChainLists(), x) ==
            if x.token then [DeedSlot(ChainNum, ChainOrder()[x.state])]
            else if x.state == 0 then [Slot(6, 20)] else []
  {
    hide PackedOf, Row, ListIs, ChainLists;
    var q := ChainOrder()[x.state];
    ChainList(q);
    ListRows(ChainNum, q, ChainLists()[x.state]);
  }

  lemma ChainPackOrder()
    ensures PackOrder(ChainSizes(), ChainNum, ChainLists()) == ChainRows()
  {
    hide RowAt, PackOrder, Total, DeedSlot;
    var z, lists, axs := ChainSizes(), ChainLists(), ChainRows();
    var less := RowLess(z, ChainNum, lists);
    PackOrderOk(z, ChainNum, lists);
    RowLessTotal(z, ChainNum, lists);
    forall k | 0 <= k < 19 ensures |RowAt(z, ChainNum, lists, axs[k])| == 1 { RowOfAx(axs[k]); }
    assert Ordered(axs, less);
    forall x: Ax ensures x in axs <==> x.state < 18 && RowAt(z, ChainNum, lists, x) != [] {
      if x.state < 18 { RowOfAx(x); }
      ChainRowListed(x);
    }
    CoveredOnly(z, ChainNum, lists, PackOrder(z, ChainNum, lists));
    OrderedOnce(PackOrder(z, ChainNum, lists), axs, less);
  }

  lemma ChainRowListed(x: Ax)
    ensures x in ChainRows() <==> x.state < 18 && (x.token || x.state == 0)
  {
    if x.state < 18 && (x.token || x.state == 0) {
      assert ChainRows()[if !x.token then 17 else if x.state == 0 then 18 else 17 - x.state] == x;
    }
  }

  lemma CoveredOnly(z: Sizes, num: nat -> nat, lists: seq<seq<Action>>, axs: seq<Ax>)
    requires Covering(z, num, lists, axs)
    ensures forall x: Ax :: x in axs <==> x.state < |lists| && RowAt(z, num, lists, x) != []
  {
    hide RowAt;
    forall x: Ax | x in axs ensures x.state < |lists| && RowAt(z, num, lists, x) != [] {
      var k :| 0 <= k < |axs| && axs[k] == x;
    }
  }

  // ----- what becomes of them -----

  /** The table holds, at the offset, the one action of a row. */
  ghost predicate Holds(t: Table, o: int, e: Slot) { e.lookahead >= 0 && Lookup(t, o, e.lookahead) == Is(e.action) }

  lemma OneSlot(tr: Transaction, e: Slot)
    requires tr.entries == [e] && Extremes(tr)
    ensures tr == Transaction([e], e.lookahead, e.action, e.lookahead) && Distinct(tr.entries) && e.lookahead >= 0
  {}

  /** Where there is room enough, one more row is found a place, and those in the table are found as before. */
  lemma OneMoreRow(t: Table, tr: Transaction, o: int, u: Table, e: Slot, p: int, f: Slot)
    requires TableOk(t) && tr.entries == [e] && Extremes(tr) && Inserted(t, tr, o, u) && Holds(t, p, f)
    requires e.lookahead <= 1 || (e.lookahead <= 20 && t.used + e.lookahead + 1 >= |t.slots|)
    ensures Found(t, tr) && TableOk(u) && Holds(u, p, f) && t.used <= u.used && |u.slots| == |Grown(t, tr).slots|
  {
    hide TableOk, Extremes, Inserted, Distinct, Dup, Hole;
    OneSlot(tr, e);
    GrownOk(t, tr);
    RoomMeansHole(Grown(t, tr), tr);
    assert Found(t, tr);
    InsertionKeeps(t, tr, o, u, p, f.lookahead);
    InsertedTable(t, tr, o, u);
  }

  lemma InsertedTable(t: Table, tr: Transaction, o: int, u: Table)
    requires TableOk(t) && Extremes(tr) && Inserted(t, tr, o, u)
    ensures t.used <= u.used && |u.slots| == |Grown(t, tr).slots|
  {
    hide TableOk, Extremes, Chosen, ActionTable.Written;
    GrownOk(t, tr);
    WrittenTable(Grown(t, tr), tr, o + tr.mn, |tr.entries|);
  }

  lemma SpoiledTable()
    ensures TableOk(Spoiled()) && Spoiled().used == 18 && |Spoiled().slots| == 22
    ensures Holds(Spoiled(), 12, Slot(5, 1))
  {}

  /** The row that is packed after `k` others. */
  function NthRow(k: nat): seq<Slot> {
    if k < 15 then [Slot(1, 16 - k)] else if k == 15 then [Slot(5, 1)] else if k == 16 then [Slot(0, 18)]
    else if k == 17 then [Slot(6, 20)] else [Slot(1, 17)]
  }

  lemma ChainRowAt(k: nat)
    requires k < 19
    ensures RowsAt(ChainSizes(), ChainNum, ChainLists(), ChainRows())[k] == NthRow(k)
  {
    hide RowAt, ChainLists, PackedOf, DeedSlot;
    RowOfAx(ChainRows()[k]);
    if k != 17 { DeedAt(k); }
  }

  lemma DeedAt(k: nat)
    requires k < 19 && k != 17
    ensures [DeedSlot(ChainNum, if k < 17 then k + 1 else 0)] == NthRow(k)
  {}

  /** The nineteen rows are inserted one after the other. */
  ghost predicate Nineteen(trs: seq<Transaction>, offsets: seq<int>, tables: seq<Table>) {
    |trs| == |offsets| == 19 && |tables| == 20 && Insertions(trs, offsets, tables) &&
    forall k :: 0 <= k < 19 ==> trs[k].entries == NthRow(k) && Extremes(trs[k])
  }

  lemma ChainNineteen(trs: seq<Transaction>, offsets: seq<int>, tables: seq<Table>)
    requires Packing(RowsAt(ChainSizes(), ChainNum, ChainLists(), ChainRows()), trs, offsets, tables)
    ensures Nineteen(trs, offsets, tables)
  {
    hide Inserted, Extremes, RowAt, ChainLists, NthRow;
    forall k | 0 <= k < 19 ensures trs[k].entries == NthRow(k) { ChainRowAt(k); }
  }

  lemma NthOf(trs: seq<Transaction>, offsets: seq<int>, tables: seq<Table>, k: nat)
    requires Nineteen(trs, offsets, tables) && k < 19
    ensures |trs| == |offsets| == 19 && |tables| == 20 && Insertions(trs, offsets, tables)
    ensures trs[k].entries == NthRow(k) && Extremes(trs[k]) && Inserted(tables[k], trs[k], offsets[k], tables[k + 1])
  {
    hide Inserted, Extremes, NthRow;
  }

  lemma FirstSixteen(trs: seq<Transaction>, offsets: seq<int>, tables: seq<Table>)
    requires Nineteen(trs, offsets, tables)
    ensures trs[..16] == Sixteen()
  {
    hide Nineteen, Extremes, Inserted, Insertions;
    NthOf(trs, offsets, tables, 0);
    forall k | 0 <= k < 16 ensures trs[k] == Sixteen()[k] {
      NthOf(trs, offsets, tables, k);
      OneSlot(trs[k], NthRow(k)[0]);
    }
  }

  /** They are packed as `SearchCanFail` tells, and the wrong entry stays. */
  lemma NineteenPacked(trs: seq<Transaction>, offsets: seq<int>, tables: seq<Table>)
    requires Nineteen(trs, offsets, tables)
    ensures |trs| == |offsets| == 19 && |tables| == 20
    ensures offsets[13] == 12 && !Found(tables[15], trs[15])
    ensures Holds(tables[19], 12, Slot(5, 1))
  {
    hide Nineteen, Inserted, Extremes, Holds, Found, TableOk, Spoiled, Insertions, NthRow;
    NthOf(trs, offsets, tables, 0);
    FirstSixteen(trs, offsets, tables);
    SearchCanFail(trs, offsets, tables);
    SpoiledTable();
    LastRows(trs, offsets, tables);
  }

  /** The three rows after the sixteenth find their places. */
  lemma LastRows(trs: seq<Transaction>, offsets: seq<int>, tables: seq<Table>)
    requires Nineteen(trs, offsets, tables) && |tables| == 20
    requires tables[16] == Spoiled() && TableOk(Spoiled()) && Spoiled().used == 18 && |Spoiled().slots| == 22
    requires Holds(Spoiled(), 12, Slot(5, 1))
    ensures Holds(tables[19], 12, Slot(5, 1))
  {
    hide Nineteen, Inserted, Extremes, Holds, Found, TableOk, Spoiled, Insertions;
    NthOf(trs, offsets, tables, 16);
    OneMoreRow(tables[16], trs[16], offsets[16], tables[17], Slot(0, 18), 12, Slot(5, 1));
    OneSlot(trs[16], Slot(0, 18));
    NthOf(trs, offsets, tables, 17);
    OneMoreRow(tables[17], trs[17], offsets[17], tables[18], Slot(6, 20), 12, Slot(5, 1));
    NthOf(trs, offsets, tables, 18);
    OneMoreRow(tables[18], trs[18], offsets[18], tables[19], Slot(1, 17), 12, Slot(5, 1));
  }

  // ----- the parser that is written -----

  /** An offset that is filed is found in the arrays, with what the table holds there. */
  lemma ShiftFound(z: Sizes, num: nat -> nat, lists: seq<seq<Action>>, t: Table, tkn: seq<int>, nt: seq<int>, q: nat,
                   e: Slot)
    requires t.used <= |t.slots| && q < |tkn| && tkn[q] != NO_OFFSET && Holds(t, tkn[q], e) && e.action >= 0
    ensures FindShift(ArraysOf(z, num, lists, t, tkn, nt), q, e.lookahead) == e.action
  {
    hide DefaultOf, Offsets, Least;
    var a := ArraysOf(z, num, lists, t, tkn, nt);
    assert q < |a.shiftOfst| && a.shiftOfst[q] == tkn[q];
  }

  lemma WrongShift(t: Arrays, overrun: bool)
    requires Packs(ChainSizes(), ChainNum, ChainLists(), ChainRows(), t, overrun)
    ensures FindShift(t, 4, 5) == 1
  {
    hide Packing, Found, ArraysOf, ChainLists, RowsAt, FindShift, Packs, Nineteen, Filed, Holds, SomeOverrun;
    var z, lists, axs := ChainSizes(), ChainLists(), ChainRows();
    SomePacking(z, lists, axs, t, overrun);
    var trs, offsets, tables, tkn, nt :| PacksBy(z, ChainNum, lists, axs, t, overrun, trs, offsets, tables, tkn, nt);
    ChainNineteen(trs, offsets, tables);
    NineteenPacked(trs, offsets, tables);
    FiledAt(lists, axs, offsets, tkn, nt);
    ShiftFound(z, ChainNum, lists, tables[19], tkn, nt, 4, Slot(5, 1));
  }

  lemma NoFit()
    ensures !Fits(RowsAt(ChainSizes(), ChainNum, ChainLists(), ChainRows()))
  {
    hide Packing, Found, ChainLists, RowsAt, Nineteen;
    var rows := RowsAt(ChainSizes(), ChainNum, ChainLists(), ChainRows());
    forall trs, offsets, tables | Packing(rows, trs, offsets, tables)
      ensures |trs| > 15 && |tables| > 15 && !Found(tables[15], trs[15])
    {
      ChainNineteen(trs, offsets, tables);
      NineteenPacked(trs, offsets, tables);
    }
  }

  /** State 14 has no action on the last letter. */
  lemma NoLastLetter()
    ensures forall a :: a in ResolvedOf(Chain(), ChainRun(), 14) ==> a.sp != 5
  {
    hide ResolvedOf;
    ChainResolved(14);
  }

  /**
   Whatever arrays the generator writes for this grammar: a search of the action table failed, and in the state after
   fourteen of the sixteen letters the parser shifts the last letter, though the state has no action on it.
   */
  lemma GeneratorSpoils(t: Arrays, overrun: bool)
    requires Outcome(Chain(), ChainRun(), t, overrun)
    ensures var z, u := SizesOf(Chain(), ChainRun()), ChainRun();
      !Fits(RowsAt(z, u.num, Lists(Chain(), u), PackOrder(z, u.num, Lists(Chain(), u)))) &&
      TablesOf(Chain(), z, t).act(u.num(14), 5) == ShiftTo(u.num(17)) &&
      forall a :: a in ResolvedOf(Chain(), u, 14) ==> a.sp != 5
  {
    hide RunOk, FollowOk, InOrder, Packs, Fits, PackOrder, RowsAt, ResolvedOf, FindShift, PackedOf, ChainRows;
    ChainPackOrder();
    assert ChainRun().num == ChainNum && SizesOf(Chain(), ChainRun()) == ChainSizes();
    WrongShift(t, overrun);
    NoFit();
    NoLastLetter();
  }

  lemma SomePacking(z: Sizes, lists: seq<seq<Action>>, axs: seq<Ax>, t: Arrays, overrun: bool)
    requires Packs(z, ChainNum, lists, axs, t, overrun)
    ensures exists trs, offsets, tables, tkn, nt ::
      PacksBy(z, ChainNum, lists, axs, t, overrun, trs, offsets, tables, tkn, nt)
  {
    hide PacksBy;
  }

  lemma FiledAt(lists: seq<seq<Action>>, axs: seq<Ax>, offsets: seq<int>, tkn: seq<int>, nt: seq<int>)
    requires |lists| == 18 && axs == ChainRows() && Filed(18, axs, 19, offsets, tkn, nt)
    ensures |offsets| == 19 && |tkn| == 18 && tkn[4] == offsets[13]
  {
    assert axs[13] == Ax(4, true);
  }

  /** The generator's run on this grammar. */
  method SpoiledTables() returns (t: Arrays, overrun: bool, done: bool)
    ensures Outcome(Chain(), ChainRun(), t, overrun) && !done
    ensures TablesOf(Chain(), SizesOf(Chain(), ChainRun()), t).act(4, 5) == ShiftTo(1)
  {
    hide Packs, Fits, FindShift, Covering, AllPacked, Writable, RowsAt, PackOrder, RunOk, FollowOk, InOrder;
    var z, u := SizesOf(Chain(), ChainRun()), ChainRun();
    var lists := Lists(Chain(), u);
    ChainRunOk();
    ChainFollow();
    ChainInOrder();
    PackOrderOk(z, u.num, lists);
    ListsWritable(Chain(), u);
    t, overrun, done := WriteTables(z, u.num, lists, PackOrder(z, u.num, lists));
    GeneratorSpoils(t, overrun);
  }
}
