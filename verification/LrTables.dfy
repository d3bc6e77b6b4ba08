/**
 The tables of a generated parser: actions as numbers, packed into shared arrays, and read back by the
 driver. Put together with the construction of the states this makes the generated parser sound.
 */
module LrTables {
  import opened Grammars
  import opened LrDriver
  import opened LrActions
  import opened LrCompress
  import opened ActionTable
  import opened MergeSort
  import Lr0

  /** `nstate` and `nrule` separate the kinds of action numbers. */
  datatype Sizes = Sizes(nstate: nat, nrule: nat, nterm: nat, nsym: nat)

  /** `compute_action`, with `num` giving the states' final numbers. */
  function CodeOf(z: Sizes, num: nat -> nat, a: Action): int {
    match a.kind
    case SHIFT => num(a.arg)
    case REDUCE => z.nstate + a.arg
    case ERROR => z.nstate + z.nrule
    case ACCEPT => z.nstate + z.nrule + 1
    case _ => -1
  }

  /** The actions on symbols from `lo` up to `hi` that are written out. */
  function Row(z: Sizes, num: nat -> nat, acts: seq<Action>, lo: nat, hi: nat): seq<Slot> {
    if acts == [] then []
    else
      var a := acts[|acts| - 1];
      Row(z, num, acts[..|acts| - 1], lo, hi) +
      if Emitted(a) && lo <= a.sp < hi then [Slot(a.sp, CodeOf(z, num, a))] else []
  }

  lemma {:induction false} RowFrom(z: Sizes, num: nat -> nat, acts: seq<Action>, lo: nat, hi: nat, j: nat)
    requires j < |Row(z, num, acts, lo, hi)|
    ensures var e := Row(z, num, acts, lo, hi)[j];
      exists a :: a in acts && Emitted(a) && lo <= a.sp < hi && e == Slot(a.sp, CodeOf(z, num, a))
    decreases |acts|
  {
    var n := |acts| - 1;
    var r := Row(z, num, acts[..n], lo, hi);
    if j < |r| {
      RowFrom(z, num, acts[..n], lo, hi, j);
      var a :| a in acts[..n] && Emitted(a) && lo <= a.sp < hi && r[j] == Slot(a.sp, CodeOf(z, num, a));
      assert a in acts;
    } else {
      assert acts[n] in acts;
    }
  }

  lemma {:induction false} RowDistinct(z: Sizes, num: nat -> nat, acts: seq<Action>, lo: nat, hi: nat)
    requires OneEach(acts)
    ensures Distinct(Row(z, num, acts, lo, hi))
    decreases |acts|
  {
    if acts != [] {
      var n := |acts| - 1;
      var r := Row(z, num, acts[..n], lo, hi);
      RowDistinct(z, num, acts[..n], lo, hi);
      forall j | 0 <= j < |r| ensures Emitted(acts[n]) ==> r[j].lookahead != acts[n].sp {
        RowFrom(z, num, acts[..n], lo, hi, j);
        var a :| a in acts[..n] && Emitted(a) && r[j] == Slot(a.sp, CodeOf(z, num, a));
        var i :| 0 <= i < n && acts[i] == a;
      }
    }
  }

  lemma {:induction false} RowFinds(z: Sizes, num: nat -> nat, acts: seq<Action>, lo: nat, hi: nat, i: nat)
    requires OneEach(acts) && i < |acts| && Emitted(acts[i]) && lo <= acts[i].sp < hi
    ensures Find(Row(z, num, acts, lo, hi), acts[i].sp) == Is(CodeOf(z, num, acts[i]))
    decreases |acts|
  {
    var n := |acts| - 1;
    var r := Row(z, num, acts[..n], lo, hi);
    if i < n {
      RowFinds(z, num, acts[..n], lo, hi, i);
      if Emitted(acts[n]) && lo <= acts[n].sp < hi {
        assert acts[i].sp != acts[n].sp;
        assert (r + [Slot(acts[n].sp, CodeOf(z, num, acts[n]))])[..|r|] == r;
      } else {
        assert r + [] == r;
      }
    }
  }

  /** A row has one slot for each symbol, and finds exactly the actions written out. */
  lemma RowIs(z: Sizes, num: nat -> nat, acts: seq<Action>, lo: nat, hi: nat)
    requires OneEach(acts)
    ensures Distinct(Row(z, num, acts, lo, hi))
    ensures forall a :: a in acts && Emitted(a) && lo <= a.sp < hi ==>
      Find(Row(z, num, acts, lo, hi), a.sp) == Is(CodeOf(z, num, a))
  {
    RowDistinct(z, num, acts, lo, hi);
    forall a | a in acts && Emitted(a) && lo <= a.sp < hi
      ensures Find(Row(z, num, acts, lo, hi), a.sp) == Is(CodeOf(z, num, a))
    {
      var i :| 0 <= i < |acts| && acts[i] == a;
      RowFinds(z, num, acts, lo, hi, i);
    }
  }

  lemma NoEntry(z: Sizes, num: nat -> nat, acts: seq<Action>, lo: nat, hi: nat, t: nat)
    requires forall a :: a in acts && Emitted(a) ==> a.sp != t
    ensures Find(Row(z, num, acts, lo, hi), t) == Nothing
  {
    var r := Row(z, num, acts, lo, hi);
    var j := EntryFrom(r, t);
    if Find(r, t).Is? { RowFrom(z, num, acts, lo, hi, j); }
  }

  /** The default of a state: the action on the symbol after all others, else the error. */
  function DefaultOf(z: Sizes, num: nat -> nat, acts: seq<Action>): int {
    match Find(Row(z, num, acts, z.nsym, z.nsym + 1), z.nsym)
    case Is(c) => c
    case Nothing => z.nstate + z.nrule
  }

  // ----- the arrays the driver reads -----

  /** `yy_action`, `yy_lookahead`, the offsets of the states, their "no offset" values, and `yy_default`. */
  datatype Arrays = Arrays(action: seq<int>, lookahead: seq<int>, shiftOfst: seq<int>, shiftDflt: int,
                           reduceOfst: seq<int>, reduceDflt: int, dflt: seq<int>)

  /** `yy_find_shift_action`. */
  function FindShift(t: Arrays, q: nat, la: nat): int {
    var dflt := if q < |t.dflt| then t.dflt[q] else -1;
    if q >= |t.shiftOfst| || t.shiftOfst[q] == t.shiftDflt then dflt
    else
      var i := t.shiftOfst[q] + la;
      if i < 0 || i >= |t.action| || i >= |t.lookahead| || t.lookahead[i] != la then dflt else t.action[i]
  }

  /** `yy_find_reduce_action`; `None` where one of its assertions fails. */
  function FindReduce(t: Arrays, q: nat, la: nat): Answer {
    if q >= |t.reduceOfst| || t.reduceOfst[q] == t.reduceDflt then Nothing
    else
      var i := t.reduceOfst[q] + la;
      if i < 0 || i >= |t.action| || i >= |t.lookahead| || t.lookahead[i] != la then Nothing
      else Is(t.action[i])
  }

  /** What `Parse` makes of an action number. */
  function Decode(z: Sizes, c: int): Act {
    if 0 <= c < z.nstate then ShiftTo(c)
    else if z.nstate <= c < z.nstate + z.nrule then ReduceBy(c - z.nstate)
    else if c == z.nstate + z.nrule then Error
    else Broken
  }

  /** What `yy_reduce` makes of one. */
  function DecodeGo(z: Sizes, o: Answer): Act {
    match o
    case Nothing => Broken
    case Is(c) =>
      if 0 <= c < z.nstate then ShiftTo(c) else if c == z.nstate + z.nrule + 1 then Accept else Broken
  }

  /** The length of a rule is recorded in one byte. */
  function Length(g: Grammar, r: nat): nat { if r < |g.rules| then |g.rules[r].rhs| % 256 else 0 }

  function TablesOf(g: Grammar, z: Sizes, t: Arrays): Tables {
    Tables((q: nat, la: nat) => Decode(z, FindShift(t, q, la)), (q: nat, n: nat) => DecodeGo(z, FindReduce(t, q, n)),
           (r: nat) => Length(g, r))
  }

  /** The arrays answer for state `i` as its action list says. */
  ghost predicate StatePacked(z: Sizes, num: nat -> nat, t: Arrays, i: nat, acts: seq<Action>) {
    (forall la :: 0 <= la < z.nterm ==>
       FindShift(t, i, la) == match Find(Row(z, num, acts, 0, z.nterm), la)
         case Is(c) => c
         case Nothing => DefaultOf(z, num, acts)) &&
    forall n :: z.nterm <= n < z.nsym && Find(Row(z, num, acts, z.nterm, z.nsym), n).Is? ==>
      FindReduce(t, i, n) == Find(Row(z, num, acts, z.nterm, z.nsym), n)
  }

  /** The arrays answer for every state. */
  ghost predicate AllPacked(z: Sizes, num: nat -> nat, t: Arrays, lists: seq<seq<Action>>) {
    forall i :: 0 <= i < |lists| ==> StatePacked(z, num, t, i, lists[i])
  }

  // ----- writing the arrays -----

  const NO_OFFSET := -2147483647

  /** A row to be packed: the token actions or the nonterminal actions of a state. */
  datatype Ax = Ax(state: nat, token: bool)

  function RowAt(z: Sizes, num: nat -> nat, lists: seq<seq<Action>>, x: Ax): seq<Slot> {
    if x.state >= |lists| then []
    else if x.token then Row(z, num, lists[x.state], 0, z.nterm)
    else Row(z, num, lists[x.state], z.nterm, z.nsym)
  }

  /** `yy_lookahead` and `yy_action`: an empty slot gets numbers that mean nothing. */
  function Lookaheads(z: Sizes, t: Table): (r: seq<int>)
    requires t.used <= |t.slots|
    ensures |r| == t.used
  {
    seq(t.used, i requires 0 <= i < t.used => if t.slots[i].lookahead < 0 then z.nsym else t.slots[i].lookahead)
  }

  function Actions(z: Sizes, t: Table): (r: seq<int>)
    requires t.used <= |t.slots|
    ensures |r| == t.used
  {
    seq(t.used, i requires 0 <= i < t.used =>
      if t.slots[i].action < 0 then z.nstate + z.nrule + 2 else t.slots[i].action)
  }

  /** `yy_shift_ofst` or `yy_reduce_ofst`: up to the last state that has an offset. */
  function Offsets(ofst: seq<int>, dflt: int): (r: seq<int>)
    ensures |r| <= |ofst| && forall i :: 0 <= i < |r| ==> r[i] == if ofst[i] == NO_OFFSET then dflt else ofst[i]
    ensures forall i :: |r| <= i < |ofst| ==> ofst[i] == NO_OFFSET
  {
    if ofst == [] then []
    else if ofst[|ofst| - 1] == NO_OFFSET then Offsets(ofst[..|ofst| - 1], dflt)
    else seq(|ofst|, i requires 0 <= i < |ofst| => if ofst[i] == NO_OFFSET then dflt else ofst[i])
  }

  /** What an empty slot gets is no symbol, and means neither a shift nor a reduction to the driver, nor an error. */
  lemma EmptySlots(z: Sizes, t: Table, i: nat)
    requires TableOk(t) && i < t.used && t.slots[i] == Empty
    ensures z.nsym <= Lookaheads(z, t)[i]
    ensures Decode(z, Actions(z, t)[i]) == Broken == DecodeGo(z, Is(Actions(z, t)[i]))
    ensures Actions(z, t)[i] == CodeOf(z, (q: nat) => q, Action(0, ACCEPT, 0, 0)) + 1
  {}

  /** All actions are numbers, so no slot that is found holds a negative one. */
  ghost predicate Numbers(entries: seq<Slot>) {
    forall j :: 0 <= j < |entries| ==> entries[j].lookahead >= 0 && entries[j].action >= 0
  }

  /** The arrays made of a packed table find at an offset what the table finds. */
  lemma ArraysFind(z: Sizes, t: Table, offset: int, entries: seq<Slot>, la: nat)
    requires TableOk(t) && Exact(t, offset, entries) && Numbers(entries) && la < z.nsym
    ensures var i := offset + la;
      (if i < 0 || i >= |Actions(z, t)| || Lookaheads(z, t)[i] != la then Nothing
       else Is(Actions(z, t)[i])) == Find(entries, la)
  {
    assert Lookup(t, offset, la) == Find(entries, la);
    var j := EntryFrom(entries, la);
  }

  /** The offsets found so far answer for the rows packed so far. */
  ghost predicate Answered(z: Sizes, num: nat -> nat, lists: seq<seq<Action>>, axs: seq<Ax>, n: nat, t: Table,
                           tkn: seq<int>, nt: seq<int>)
    requires n <= |axs|
  {
    |tkn| == |lists| && |nt| == |lists| &&
    (forall k :: 0 <= k < n ==> axs[k].state < |lists|) &&
    (forall k :: 0 <= k < n ==>
       var o := if axs[k].token then tkn[axs[k].state] else nt[axs[k].state];
       o != NO_OFFSET && Exact(t, o, RowAt(z, num, lists, axs[k]))) &&
    (forall i :: 0 <= i < |lists| && Ax(i, true) !in axs[..n] ==> tkn[i] == NO_OFFSET) &&
    (forall i :: 0 <= i < |lists| && Ax(i, false) !in axs[..n] ==> nt[i] == NO_OFFSET)
  }

  /** Every row that is not empty is among those to be packed, none of these is empty, and each is there once. */
  ghost predicate Covering(z: Sizes, num: nat -> nat, lists: seq<seq<Action>>, axs: seq<Ax>) {
    (forall k :: 0 <= k < |axs| ==> axs[k].state < |lists| && RowAt(z, num, lists, axs[k]) != []) &&
    (forall k, l :: 0 <= k < l < |axs| ==> axs[k] != axs[l]) &&
    forall x: Ax :: x.state < |lists| && RowAt(z, num, lists, x) != [] ==> x in axs
  }

  /** What packing must know of the lists: one action each, and all of them numbers. */
  ghost predicate Writable(z: Sizes, num: nat -> nat, lists: seq<seq<Action>>) {
    z.nsym < 0x7fff_ffff && forall i :: 0 <= i < |lists| ==> OneEach(lists[i])
  }

  lemma RowNumbers(z: Sizes, num: nat -> nat, acts: seq<Action>, lo: nat, hi: nat)
    ensures Numbers(Row(z, num, acts, lo, hi))
    ensures forall j :: 0 <= j < |Row(z, num, acts, lo, hi)| ==> lo <= Row(z, num, acts, lo, hi)[j].lookahead < hi
  {
    forall j | 0 <= j < |Row(z, num, acts, lo, hi)|
      ensures lo <= Row(z, num, acts, lo, hi)[j].lookahead < hi && Row(z, num, acts, lo, hi)[j].action >= 0
    {
      RowFrom(z, num, acts, lo, hi, j);
    }
  }

  /** The arrays are those of a table in which all rows were packed. */
  ghost predicate Filled(z: Sizes, num: nat -> nat, lists: seq<seq<Action>>, axs: seq<Ax>, t: Table, tkn: seq<int>,
                         nt: seq<int>, a: Arrays)
  {
    Covering(z, num, lists, axs) && Answered(z, num, lists, axs, |axs|, t, tkn, nt) && TableOk(t) &&
    z.nterm <= z.nsym && t.used <= |t.slots| &&
    (forall k :: 0 <= k < |tkn| ==> tkn[k] == NO_OFFSET || tkn[k] > a.shiftDflt) &&
    (forall k :: 0 <= k < |nt| ==> nt[k] == NO_OFFSET || nt[k] > a.reduceDflt) &&
    a.action == Actions(z, t) && a.lookahead == Lookaheads(z, t) &&
    a.shiftOfst == Offsets(tkn, a.shiftDflt) && a.reduceOfst == Offsets(nt, a.reduceDflt) && |a.dflt| == |lists|
  }

  /** A row that is not empty has its offset; one that is empty has none. */
  lemma RowAnswered(z: Sizes, num: nat -> nat, lists: seq<seq<Action>>, axs: seq<Ax>, t: Table, tkn: seq<int>,
                    nt: seq<int>, x: Ax)
    requires Covering(z, num, lists, axs) && Answered(z, num, lists, axs, |axs|, t, tkn, nt) && x.state < |lists|
    ensures var o, row := if x.token then tkn[x.state] else nt[x.state], RowAt(z, num, lists, x);
      if row == [] then o == NO_OFFSET else o != NO_OFFSET && Exact(t, o, row)
  {
    hide Exact, RowAt;
    RowPacked(z, num, lists, axs, x);
    assert axs[..|axs|] == axs;
    if x in axs { var k :| 0 <= k < |axs| && axs[k] == x; }
  }

  lemma ShiftAnswers(z: Sizes, num: nat -> nat, lists: seq<seq<Action>>, axs: seq<Ax>, t: Table, tkn: seq<int>,
                     nt: seq<int>, a: Arrays, i: nat, la: nat)
    requires Filled(z, num, lists, axs, t, tkn, nt, a) && i < |lists| && la < z.nterm
    ensures FindShift(a, i, la) ==
      match Find(Row(z, num, lists[i], 0, z.nterm), la)
      case Is(c) => c
      case Nothing => a.dflt[i]
  {
    hide TableOk, Row, Covering, Exact, Numbers, Find;
    var row := Row(z, num, lists[i], 0, z.nterm);
    RowAnswered(z, num, lists, axs, t, tkn, nt, Ax(i, true));
    RowNumbers(z, num, lists[i], 0, z.nterm);
    if row == [] { EmptyFind(la); } else { ArraysFind(z, t, tkn[i], row, la); }
  }

  lemma GotoAnswers(z: Sizes, num: nat -> nat, lists: seq<seq<Action>>, axs: seq<Ax>, t: Table, tkn: seq<int>,
                    nt: seq<int>, a: Arrays, i: nat, n: nat)
    requires Filled(z, num, lists, axs, t, tkn, nt, a) && i < |lists| && z.nterm <= n < z.nsym
    requires Find(Row(z, num, lists[i], z.nterm, z.nsym), n).Is?
    ensures FindReduce(a, i, n) == Find(Row(z, num, lists[i], z.nterm, z.nsym), n)
  {
    hide TableOk, Row, Covering, Exact, Numbers, Find;
    var row := Row(z, num, lists[i], z.nterm, z.nsym);
    RowAnswered(z, num, lists, axs, t, tkn, nt, Ax(i, false));
    RowNumbers(z, num, lists[i], z.nterm, z.nsym);
    EmptyFind(n);
    ArraysFind(z, t, nt[i], row, n);
  }

  /** The arrays answer for a state whose rows were packed. */
  lemma StateAnswers(z: Sizes, num: nat -> nat, lists: seq<seq<Action>>, axs: seq<Ax>, t: Table, tkn: seq<int>,
                     nt: seq<int>, a: Arrays, i: nat)
    requires Filled(z, num, lists, axs, t, tkn, nt, a) && i < |lists| && a.dflt[i] == DefaultOf(z, num, lists[i])
    ensures StatePacked(z, num, a, i, lists[i])
  {
    hide Row, Filled, DefaultOf, Find, FindShift, FindReduce;
    var acts := lists[i];
    forall la | 0 <= la < z.nterm
      ensures FindShift(a, i, la) == match Find(Row(z, num, acts, 0, z.nterm), la)
        case Is(c) => c
        case Nothing => DefaultOf(z, num, acts)
    {
      ShiftAnswers(z, num, lists, axs, t, tkn, nt, a, i, la);
    }
    forall n | z.nterm <= n < z.nsym && Find(Row(z, num, acts, z.nterm, z.nsym), n).Is?
      ensures FindReduce(a, i, n) == Find(Row(z, num, acts, z.nterm, z.nsym), n)
    {
      GotoAnswers(z, num, lists, axs, t, tkn, nt, a, i, n);
    }
  }

  lemma RowPacked(z: Sizes, num: nat -> nat, lists: seq<seq<Action>>, axs: seq<Ax>, x: Ax)
    requires Covering(z, num, lists, axs) && x.state < |lists|
    ensures x in axs <==> RowAt(z, num, lists, x) != []
  {
    hide RowAt;
  }

  lemma EmptyFind(la: int)
    ensures Find([], la) == Nothing
  {}

  /** The transaction of a row. */
  method Collect(tab: ActTab, row: seq<Slot>)
    requires tab.Valid() && tab.entries == [] && Distinct(row) && Numbers(row)
    modifies tab
    ensures tab.Valid() && tab.Contents() == old(tab.Contents()) && tab.entries == row
  {
    for j := 0 to |row|
      invariant tab.Valid() && tab.Contents() == old(tab.Contents()) && tab.entries == row[..j]
    {
      assert forall k :: 0 <= k < j ==> row[..j][k] == row[k];
      tab.Action(row[j].lookahead, row[j].action);
      assert row[..j + 1] == row[..j] + [row[j]];
    }
    assert row[..|row|] == row;
  }

  /** One row is packed and its offset recorded. */
  lemma AnsweredNext(z: Sizes, num: nat -> nat, lists: seq<seq<Action>>, axs: seq<Ax>, n: nat, t: Table, t': Table,
                     tkn: seq<int>, nt: seq<int>, placed: seq<Placed>, o: int)
    requires n < |axs| && Covering(z, num, lists, axs) && Answered(z, num, lists, axs, n, t, tkn, nt) && o != NO_OFFSET
    requires |placed| == n && Recorded(z, num, lists, axs, n, tkn, nt, placed)
    requires Packed(t', placed + [Placed(o, RowAt(z, num, lists, axs[n]))])
    ensures var i := axs[n].state;
      var tkn' := if axs[n].token then tkn[i := o] else tkn;
      var nt' := if axs[n].token then nt else nt[i := o];
      Answered(z, num, lists, axs, n + 1, t', tkn', nt') &&
      Recorded(z, num, lists, axs, n + 1, tkn', nt', placed + [Placed(o, RowAt(z, num, lists, axs[n]))])
  {
    hide RowAt, Exact, Free;
    var i := axs[n].state;
    var tkn' := if axs[n].token then tkn[i := o] else tkn;
    var nt' := if axs[n].token then nt else nt[i := o];
    var placed' := placed + [Placed(o, RowAt(z, num, lists, axs[n]))];
    assert axs[..n + 1] == axs[..n] + [axs[n]];
    forall k | 0 <= k < n + 1
      ensures var p := if axs[k].token then tkn'[axs[k].state] else nt'[axs[k].state];
        p != NO_OFFSET && Exact(t', p, RowAt(z, num, lists, axs[k])) &&
        placed'[k] == Placed(p, RowAt(z, num, lists, axs[k]))
    {
      assert k < n ==> axs[k] != axs[n];
      assert Exact(t', placed'[k].offset, placed'[k].entries);
    }
  }

  /** The placed transactions are the rows packed so far, at the recorded offsets. */
  ghost predicate Recorded(z: Sizes, num: nat -> nat, lists: seq<seq<Action>>, axs: seq<Ax>, n: nat, tkn: seq<int>,
                           nt: seq<int>, placed: seq<Placed>)
    requires n <= |axs|
  {
    |placed| == n && |tkn| == |lists| == |nt| && (forall k :: 0 <= k < n ==> axs[k].state < |lists|) &&
    forall k :: 0 <= k < n ==>
      placed[k] == Placed(if axs[k].token then tkn[axs[k].state] else nt[axs[k].state], RowAt(z, num, lists, axs[k]))
  }

  function Min(a: int, b: int): int { if a < b then a else b }

  /** The least of the offsets there are, and 0. */
  function Least(ofst: seq<int>): (m: int)
    ensures m <= 0 && forall i :: 0 <= i < |ofst| && ofst[i] != NO_OFFSET ==> m <= ofst[i]
  {
    if ofst == [] then 0
    else
      var m := Least(ofst[..|ofst| - 1]);
      if ofst[|ofst| - 1] != NO_OFFSET then Min(m, ofst[|ofst| - 1]) else m
  }

  lemma {:induction false} LeastIs(ofst: seq<int>)
    ensures Least(ofst) == 0 || (Least(ofst) in ofst && Least(ofst) != NO_OFFSET)
  {
    if ofst != [] { LeastIs(ofst[..|ofst| - 1]); }
  }

  lemma NothingPlaced(z: Sizes, num: nat -> nat, lists: seq<seq<Action>>, axs: seq<Ax>, t: Table, tkn: seq<int>,
                      nt: seq<int>)
    requires |tkn| == |lists| == |nt|
    requires forall i :: 0 <= i < |lists| ==> tkn[i] == NO_OFFSET && nt[i] == NO_OFFSET
    ensures Answered(z, num, lists, axs, 0, t, tkn, nt) && Recorded(z, num, lists, axs, 0, tkn, nt, []) && Packed(t, [])
  {}

  lemma RowWritable(z: Sizes, num: nat -> nat, lists: seq<seq<Action>>, axs: seq<Ax>, n: nat)
    requires Writable(z, num, lists) && Covering(z, num, lists, axs) && n < |axs| && z.nterm <= z.nsym
    ensures var row := RowAt(z, num, lists, axs[n]);
      axs[n].state < |lists| && row != [] && Distinct(row) && Numbers(row) &&
      forall j :: 0 <= j < |row| ==> row[j].lookahead < 0x7fff_ffff
  {
    hide Distinct, Numbers;
    var acts := lists[axs[n].state];
    RowIs(z, num, acts, 0, z.nterm);
    RowIs(z, num, acts, z.nterm, z.nsym);
    RowNumbers(z, num, acts, 0, z.nterm);
    RowNumbers(z, num, acts, z.nterm, z.nsym);
  }

  /** A write beyond the array. */
  ghost predicate Overruns(t: Table, tr: Transaction, o: int) { !InBounds(Grown(t, tr), tr, o + tr.mn) }

  ghost predicate SomeOverrun(trs: seq<Transaction>, offsets: seq<int>, tables: seq<Table>, n: nat)
    requires n <= |trs| && n <= |offsets| && n <= |tables|
  {
    exists k :: 0 <= k < n && Overruns(tables[k], trs[k], offsets[k])
  }

  lemma OverrunNext(trs: seq<Transaction>, offsets: seq<int>, tables: seq<Table>, n: nat, tr: Transaction, o: int,
                    t: Table)
    requires |trs| == |offsets| == n && |tables| == n + 1
    ensures SomeOverrun(trs + [tr], offsets + [o], tables + [t], n + 1) <==>
            SomeOverrun(trs, offsets, tables, n) || Overruns(tables[n], tr, o)
  {
    hide Overruns;
    var us, ps, ts := trs + [tr], offsets + [o], tables + [t];
    if k :| 0 <= k < n && Overruns(tables[k], trs[k], offsets[k]) { assert Overruns(ts[k], us[k], ps[k]); }
    if Overruns(tables[n], tr, o) { assert Overruns(ts[n], us[n], ps[n]); }
  }

  /** One row: the actions are collected and inserted. */
  method PackRow(tab: ActTab, row: seq<Slot>, ghost placed: seq<Placed>)
    returns (o: int, overrun: bool, found: bool, ghost tr: Transaction)
    requires tab.Valid() && tab.entries == [] && row != [] && Distinct(row) && Numbers(row)
    requires Packed(tab.Contents(), placed) && forall j :: 0 <= j < |row| ==> row[j].lookahead < 0x7fff_ffff
    modifies tab
    ensures tab.Valid() && tab.entries == [] && o != NO_OFFSET
    ensures found ==> Packed(tab.Contents(), placed + [Placed(o, row)])
    ensures tr.entries == row && Extremes(tr) && Inserted(old(tab.Contents()), tr, o, tab.Contents())
    ensures (found <==> Found(old(tab.Contents()), tr)) && (found ==> !overrun)
    ensures overrun <==> Overruns(old(tab.Contents()), tr, o)
  {
    hide TableOk, Distinct, Packed, ActionTable.Written, Dup, Hole, InBounds;
    Collect(tab, row);
    tr := tab.Pending();
    LeastBound(tr);
    o, overrun, found := tab.Insert(placed);
    ChosenAt(Grown(old(tab.Contents()), tr), tr, o + tr.mn);
  }

  lemma LeastBound(tr: Transaction)
    requires Extremes(tr) && forall j :: 0 <= j < |tr.entries| ==> tr.entries[j].lookahead < 0x7fff_ffff
    ensures tr.mn < 0x7fff_ffff
  {}

  lemma ChosenAt(t: Table, tr: Transaction, i: int)
    requires t.used <= |t.slots| && Chosen(t, tr, i)
    ensures i >= 0
  {}

  function RowsAt(z: Sizes, num: nat -> nat, lists: seq<seq<Action>>, axs: seq<Ax>): (rows: seq<seq<Slot>>)
    ensures |rows| == |axs| && forall k :: 0 <= k < |rows| ==> rows[k] == RowAt(z, num, lists, axs[k])
  {
    seq(|axs|, k requires 0 <= k < |axs| => RowAt(z, num, lists, axs[k]))
  }

  lemma RowsDistinct(z: Sizes, num: nat -> nat, lists: seq<seq<Action>>, axs: seq<Ax>)
    requires Writable(z, num, lists) && Covering(z, num, lists, axs) && z.nterm <= z.nsym
    ensures forall k :: 0 <= k < |axs| ==> Distinct(RowsAt(z, num, lists, axs)[k])
  {
    hide RowAt, Distinct, Numbers, Covering, Writable;
    forall k | 0 <= k < |axs| ensures Distinct(RowsAt(z, num, lists, axs)[k]) { RowWritable(z, num, lists, axs, k); }
  }

  // ----- rows, offsets and arrays -----

  /** The offsets of the first `n` rows are filed under their states, and no others. */
  ghost predicate Filed(size: nat, axs: seq<Ax>, n: nat, offsets: seq<int>, tkn: seq<int>, nt: seq<int>) {
    n <= |axs| && |offsets| == n && |tkn| == size == |nt| &&
    (forall k :: 0 <= k < n ==>
       axs[k].state < size && offsets[k] == if axs[k].token then tkn[axs[k].state] else nt[axs[k].state]) &&
    forall i :: 0 <= i < size ==>
      (Ax(i, true) !in axs[..n] ==> tkn[i] == NO_OFFSET) && (Ax(i, false) !in axs[..n] ==> nt[i] == NO_OFFSET)
  }

  lemma FiledNext(z: Sizes, num: nat -> nat, lists: seq<seq<Action>>, axs: seq<Ax>, n: nat, offsets: seq<int>,
                  tkn: seq<int>, nt: seq<int>, o: int)
    requires Covering(z, num, lists, axs) && Filed(|lists|, axs, n, offsets, tkn, nt) && n < |axs|
    ensures axs[n].state < |lists|
    ensures var i := axs[n].state;
      Filed(|lists|, axs, n + 1, offsets + [o], if axs[n].token then tkn[i := o] else tkn,
            if axs[n].token then nt else nt[i := o])
  {
    hide RowAt;
    assert axs[..n + 1] == axs[..n] + [axs[n]];
  }

  /** `ReportTable`: the table and the offsets as they are written out. */
  function ArraysOf(z: Sizes, num: nat -> nat, lists: seq<seq<Action>>, t: Table, tkn: seq<int>, nt: seq<int>): Arrays
    requires t.used <= |t.slots|
  {
    Arrays(Actions(z, t), Lookaheads(z, t), Offsets(tkn, Least(tkn) - 1), Least(tkn) - 1, Offsets(nt, Least(nt) - 1),
           Least(nt) - 1, seq(|lists|, i requires 0 <= i < |lists| => DefaultOf(z, num, lists[i])))
  }

  /** What stands for "no offset" is one below the least offset of its kind, 0 included. */
  lemma NoOffsetIs(z: Sizes, num: nat -> nat, lists: seq<seq<Action>>, t: Table, tkn: seq<int>, nt: seq<int>)
    requires t.used <= |t.slots|
    ensures var a := ArraysOf(z, num, lists, t, tkn, nt);
      (a.shiftDflt == -1 || a.shiftDflt + 1 in tkn) && (a.reduceDflt == -1 || a.reduceDflt + 1 in nt) &&
      a.shiftDflt < 0 && (forall i :: 0 <= i < |tkn| && tkn[i] != NO_OFFSET ==> a.shiftDflt < tkn[i]) &&
      a.reduceDflt < 0 && forall i :: 0 <= i < |nt| && nt[i] != NO_OFFSET ==> a.reduceDflt < nt[i]
  {
    hide Actions, Lookaheads, Offsets, DefaultOf, Least;
    LeastIs(tkn);
    LeastIs(nt);
  }

  /** The arrays are what comes of inserting the rows in the given order; `overrun` tells of writes out of bounds. */
  ghost predicate Packs(z: Sizes, num: nat -> nat, lists: seq<seq<Action>>, axs: seq<Ax>, a: Arrays, overrun: bool) {
    exists trs, offsets, tables, tkn, nt ::
      PacksBy(z, num, lists, axs, a, overrun, trs, offsets, tables, tkn, nt)
  }

  ghost predicate PacksBy(z: Sizes, num: nat -> nat, lists: seq<seq<Action>>, axs: seq<Ax>, a: Arrays, overrun: bool,
                          trs: seq<Transaction>, offsets: seq<int>, tables: seq<Table>, tkn: seq<int>, nt: seq<int>)
  {
    Packing(RowsAt(z, num, lists, axs), trs, offsets, tables) && Filed(|lists|, axs, |axs|, offsets, tkn, nt) &&
    tables[|axs|].used <= |tables[|axs|].slots| && a == ArraysOf(z, num, lists, tables[|axs|], tkn, nt) &&
    (overrun <==> SomeOverrun(trs, offsets, tables, |axs|))
  }

  lemma FiledNone(size: nat, axs: seq<Ax>, tkn: seq<int>, nt: seq<int>)
    requires |tkn| == size == |nt| && forall i :: 0 <= i < size ==> tkn[i] == NO_OFFSET && nt[i] == NO_OFFSET
    ensures Filed(size, axs, 0, [], tkn, nt)
  {}

  lemma NoOverrun(tables: seq<Table>)
    ensures !SomeOverrun([], [], tables, 0)
  {}

  lemma NothingPacked(rows: seq<seq<Slot>>)
    ensures Packing(rows[..0], [], [], [Table([], 0)])
  {}

  lemma AllPackedFits(rows: seq<seq<Slot>>, trs: seq<Transaction>, offsets: seq<int>, tables: seq<Table>)
    requires Packing(rows[..|rows|], trs, offsets, tables)
    requires forall k :: 0 <= k < |rows| ==> Found(tables[k], trs[k])
    ensures Fits(rows)
  {
    assert rows[..|rows|] == rows;
  }

  lemma PacksAll(z: Sizes, num: nat -> nat, lists: seq<seq<Action>>, axs: seq<Ax>, a: Arrays, overrun: bool,
                 trs: seq<Transaction>, offsets: seq<int>, tables: seq<Table>, tkn: seq<int>, nt: seq<int>)
    requires Packing(RowsAt(z, num, lists, axs)[..|axs|], trs, offsets, tables)
    requires Filed(|lists|, axs, |axs|, offsets, tkn, nt) && tables[|axs|].used <= |tables[|axs|].slots|
    requires a == ArraysOf(z, num, lists, tables[|axs|], tkn, nt)
    requires overrun <==> SomeOverrun(trs, offsets, tables, |axs|)
    ensures Packs(z, num, lists, axs, a, overrun)
  {
    hide Packing, Filed, ArraysOf, SomeOverrun, RowAt;
    assert RowsAt(z, num, lists, axs)[..|axs|] == RowsAt(z, num, lists, axs);
    assert PacksBy(z, num, lists, axs, a, overrun, trs, offsets, tables, tkn, nt);
  }

  /** When every search succeeded, the arrays answer. */
  lemma FoundAnswers(z: Sizes, num: nat -> nat, lists: seq<seq<Action>>, axs: seq<Ax>, t: Table, tkn: seq<int>,
                     nt: seq<int>)
    requires Covering(z, num, lists, axs) && Answered(z, num, lists, axs, |axs|, t, tkn, nt) && TableOk(t)
    requires z.nterm <= z.nsym && t.used <= |t.slots|
    ensures AllPacked(z, num, ArraysOf(z, num, lists, t, tkn, nt), lists)
  {
    hide Covering, Answered, TableOk, DefaultOf, StatePacked, Offsets, Lookaheads, Actions, Least, Filled;
    var a := ArraysOf(z, num, lists, t, tkn, nt);
    ArraysFilled(z, num, lists, axs, t, tkn, nt);
    forall i | 0 <= i < |lists| ensures StatePacked(z, num, a, i, lists[i]) {
      StateAnswers(z, num, lists, axs, t, tkn, nt, a, i);
    }
  }

  lemma ArraysFilled(z: Sizes, num: nat -> nat, lists: seq<seq<Action>>, axs: seq<Ax>, t: Table, tkn: seq<int>,
                     nt: seq<int>)
    requires Covering(z, num, lists, axs) && Answered(z, num, lists, axs, |axs|, t, tkn, nt) && TableOk(t)
    requires z.nterm <= z.nsym && t.used <= |t.slots|
    ensures Filled(z, num, lists, axs, t, tkn, nt, ArraysOf(z, num, lists, t, tkn, nt))
  {
    hide Covering, Answered, TableOk, DefaultOf, Offsets, Lookaheads, Actions, Least;
  }

  /**
   The part of `ReportTable` that packs the actions and makes the arrays, whether or not every search of the action
   table succeeds. `found` tells that all do; then the arrays answer for every state exactly as its actions say.
   */
  method WriteTables(z: Sizes, num: nat -> nat, lists: seq<seq<Action>>, axs: seq<Ax>)
    returns (a: Arrays, overrun: bool, found: bool)
    requires Writable(z, num, lists) && Covering(z, num, lists, axs) && z.nterm <= z.nsym
    ensures Packs(z, num, lists, axs, a, overrun)
    ensures found <==> Fits(RowsAt(z, num, lists, axs))
    ensures found ==> !overrun && AllPacked(z, num, a, lists)
  {
    hide Packing, Found, Inserted, Fits, Filed, Packs, Overruns, SomeOverrun, AllPacked, Covering, Row, RowAt, Answered,
         Recorded, Exact, Packed, Find, DefaultOf, TableOk, Distinct, Numbers, Offsets, Lookaheads, Actions, Least,
         Extremes, Writable;
    var tab := new ActTab();
    var tkn := seq(|lists|, _ => NO_OFFSET);
    var nt := seq(|lists|, _ => NO_OFFSET);
    overrun, found := false, true;
    ghost var placed: seq<Placed> := [];
    NothingPlaced(z, num, lists, axs, tab.Contents(), tkn, nt);
    ghost var rows := RowsAt(z, num, lists, axs);
    ghost var trs: seq<Transaction>, offsets: seq<int>, tables := [], [], [tab.Contents()];
    NothingPacked(rows);
    NoOverrun(tables);
    FiledNone(|lists|, axs, tkn, nt);
    RowsDistinct(z, num, lists, axs);
    for n := 0 to |axs|
      invariant fresh(tab) && tab.Valid() && tab.entries == [] && |tkn| == |lists| == |nt|
      invariant Packing(rows[..n], trs, offsets, tables) && |tables| == n + 1 && |trs| == n == |offsets|
      invariant tables[n] == tab.Contents() && Filed(|lists|, axs, n, offsets, tkn, nt)
      invariant overrun <==> SomeOverrun(trs, offsets, tables, n)
      invariant if found then forall k :: 0 <= k < n ==> Found(tables[k], trs[k]) else !Fits(rows)
      invariant found ==> !overrun && |placed| == n && Packed(tab.Contents(), placed)
      invariant found ==> Recorded(z, num, lists, axs, n, tkn, nt, placed)
      invariant found ==> Answered(z, num, lists, axs, n, tab.Contents(), tkn, nt)
    {
      RowWritable(z, num, lists, axs, n);
      ghost var none := seq(|lists|, _ => NO_OFFSET);
      NothingPlaced(z, num, lists, axs, tab.Contents(), none, none);
      ghost var t := tab.Contents();
      var row := RowAt(z, num, lists, axs[n]);
      var o, over, hit, tr := PackRow(tab, row, if found then placed else []);
      if found && hit { AnsweredNext(z, num, lists, axs, n, t, tab.Contents(), tkn, nt, placed, o); }
      if found && !hit { FailedSearch(rows, trs, offsets, tables, n, tr); }
      OverrunNext(trs, offsets, tables, n, tr, o, tab.Contents());
      PackingMore(rows, trs, offsets, tables, n, tr, o, tab.Contents());
      FiledNext(z, num, lists, axs, n, offsets, tkn, nt, o);
      overrun, found := overrun || over, found && hit;
      placed := placed + [Placed(o, row)];
      trs, offsets, tables := trs + [tr], offsets + [o], tables + [tab.Contents()];
      if axs[n].token { tkn := tkn[axs[n].state := o]; } else { nt := nt[axs[n].state := o]; }
    }
    TableUsed(tab.Contents());
    a := ArraysOf(z, num, lists, tab.Contents(), tkn, nt);
    PacksAll(z, num, lists, axs, a, overrun, trs, offsets, tables, tkn, nt);
    if found {
      AllPackedFits(rows, trs, offsets, tables);
      FoundAnswers(z, num, lists, axs, tab.Contents(), tkn, nt);
    }
  }
}
