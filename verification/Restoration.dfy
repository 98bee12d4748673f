/** The restoration dashboard: which events a filter selects, and how many are affected, off and back on. */
module Restoration {
  import opened Listings
  import opened Network
  import opened Ledger
  import opened Accounts

  /** An outage record as loaded for a period. Its counts are those of the nodes it affects. */
  datatype Row = Row(id: int, parent: Option<int>, kind: string, start: int, end: Option<int>, affected: seq<int>) {
    predicate Active() { end.None? }
  }

  /** Distinct ids, and parents with smaller ids than their continuations. */
  ghost predicate ValidRows(rows: seq<Row>) {
    && (forall i, j :: 0 <= i < j < |rows| ==> rows[i].id != rows[j].id)
    && (forall i :: 0 <= i < |rows| && rows[i].parent.Some? ==> 0 <= rows[i].parent.value < rows[i].id)
  }

  /** Position of the row with this id among the first `n`; a later row with the same id would win. */
  function IndexOf(rows: seq<Row>, n: nat): (idx: map<int, nat>)
    requires n <= |rows|
  {
    if n == 0 then map[] else IndexOf(rows, n - 1)[rows[n - 1].id := n - 1]
  }

  ghost predicate InRange(rows: seq<Row>, idx: map<int, nat>) {
    forall id: int :: id in idx ==> idx[id] < |rows|
  }

  /** A row whose parent is not loaded counts as a root event. */
  predicate IsRoot(idx: map<int, nat>, r: Row) {
    r.parent.None? || r.parent.value !in idx
  }

  const GUARD := 64

  /** The position of a row's loaded parent. */
  function ParentAt(rows: seq<Row>, idx: map<int, nat>, i: nat): (p: nat)
    requires i < |rows| && InRange(rows, idx) && !IsRoot(idx, rows[i])
    ensures p < |rows| && p == idx[rows[i].parent.value]
  {
    var id: int := rows[i].parent.value;
    assert id in idx;
    idx[id]
  }

  /** The event reached by following loaded parents at most `guard` times. */
  function RootAt(rows: seq<Row>, idx: map<int, nat>, i: nat, guard: nat): (r: nat)
    requires i < |rows| && InRange(rows, idx)
    ensures r < |rows|
    decreases guard
  {
    if guard == 0 || IsRoot(idx, rows[i]) then i
    else RootAt(rows, idx, ParentAt(rows, idx, i), guard - 1)
  }

  ghost predicate Indexed(rows: seq<Row>, idx: map<int, nat>) {
    && ValidRows(rows)
    && (forall id: int :: id in idx ==> idx[id] < |rows| && rows[idx[id]].id == id)
    && (forall i :: 0 <= i < |rows| ==> rows[i].id in idx && idx[rows[i].id] == i)
  }

  /** The root event of a row, however long the chain. */
  ghost function Top(rows: seq<Row>, idx: map<int, nat>, i: nat): (r: nat)
    requires Indexed(rows, idx) && i < |rows|
    ensures r < |rows| && IsRoot(idx, rows[r])
    decreases if rows[i].id < 0 then 0 else rows[i].id
  {
    if IsRoot(idx, rows[i]) then i else Top(rows, idx, ParentAt(rows, idx, i))
  }

  /** Number of loaded ancestors. */
  ghost function Depth(rows: seq<Row>, idx: map<int, nat>, i: nat): nat
    requires Indexed(rows, idx) && i < |rows|
    decreases if rows[i].id < 0 then 0 else rows[i].id
  {
    if IsRoot(idx, rows[i]) then 0 else 1 + Depth(rows, idx, ParentAt(rows, idx, i))
  }

  /** The guarded walk ends at a root event exactly when the chain is no longer than the guard. */
  lemma {:induction false} GuardedRootIff(rows: seq<Row>, idx: map<int, nat>, i: nat, guard: nat)
    requires Indexed(rows, idx) && i < |rows|
    ensures RootAt(rows, idx, i, guard) == Top(rows, idx, i) <==> Depth(rows, idx, i) <= guard
    ensures IsRoot(idx, rows[RootAt(rows, idx, i, guard)]) <==> Depth(rows, idx, i) <= guard
    decreases guard
  {
    if guard > 0 && !IsRoot(idx, rows[i]) {
      GuardedRootIff(rows, idx, ParentAt(rows, idx, i), guard - 1);
    }
  }

  // ------------------------------------------------------------------ selection

  ghost predicate Within(sel: seq<nat>, n: nat) {
    forall k :: 0 <= k < |sel| ==> sel[k] < n
  }

  datatype Filter = Filter(kind: string, outage: int)

  predicate Picked(rows: seq<Row>, idx: map<int, nat>, f: Filter, i: nat)
    requires i < |rows| && InRange(rows, idx)
  {
    var r := rows[RootAt(rows, idx, i, GUARD)];
    (f.kind == "" || r.kind == f.kind) && (f.outage == 0 || r.id == f.outage)
  }

  function Selection(rows: seq<Row>, idx: map<int, nat>, f: Filter, n: nat): (sel: seq<nat>)
    requires n <= |rows| && InRange(rows, idx)
    ensures Within(sel, n)
    ensures forall i: nat :: i in sel <==> i < n && Picked(rows, idx, f, i)
  {
    if n == 0 then []
    else Selection(rows, idx, f, n - 1) + if Picked(rows, idx, f, n - 1) then [n - 1] else []
  }

  ghost predicate Ascends(sel: seq<nat>, n: nat) {
    forall j, k :: 0 <= j < k < |sel| ==> sel[j] < sel[k] < n
  }

  lemma {:induction false} SelectionAscends(rows: seq<Row>, idx: map<int, nat>, f: Filter, n: nat)
    requires n <= |rows| && InRange(rows, idx)
    ensures Ascends(Selection(rows, idx, f, n), n)
  {
    hide Picked;
    if n > 0 {
      SelectionAscends(rows, idx, f, n - 1);
      var init := Selection(rows, idx, f, n - 1);
      assert Within(init, n - 1) && Ascends(init, n - 1);
      assert Ascends(init + [n - 1], n);
      assert init + [] == init;
    }
  }

  lemma {:induction false} SelectionDistinct(rows: seq<Row>, idx: map<int, nat>, f: Filter, n: nat)
    requires n <= |rows| && InRange(rows, idx)
    ensures Distinct(Selection(rows, idx, f, n))
  {
    if n > 0 { SelectionDistinct(rows, idx, f, n - 1); }
  }

  /** The way from a row up: each row is followed by the loaded row its parent number names, 64 times at most, and the
      way ends before that only where no such row is loaded. */
  ghost predicate LeadsUp(rows: seq<Row>, way: seq<nat>, i: nat) {
    && 0 < |way| <= 65 && way[0] == i
    && (forall k :: 0 <= k < |way| ==> way[k] < |rows|)
    && (forall k :: 0 < k < |way| ==> rows[way[k - 1]].parent == Some(rows[way[k]].id))
    && (|way| < 65 ==> forall j :: 0 <= j < |rows| ==> rows[way[|way| - 1]].parent != Some(rows[j].id))
  }

  /** The first `|way| - 1` steps of a walk. */
  ghost predicate Climbs(rows: seq<Row>, way: seq<nat>) {
    && way != [] && (forall k :: 0 <= k < |way| ==> way[k] < |rows|)
    && (forall k :: 0 < k < |way| ==> rows[way[k - 1]].parent == Some(rows[way[k]].id))
  }

  lemma RootIs(rows: seq<Row>, idx: map<int, nat>, i: nat)
    requires Indexed(rows, idx) && i < |rows|
    ensures IsRoot(idx, rows[i]) <==> forall j :: 0 <= j < |rows| ==> rows[i].parent != Some(rows[j].id)
    ensures !IsRoot(idx, rows[i]) ==> rows[i].parent == Some(rows[ParentAt(rows, idx, i)].id)
  {
  }

  lemma {:induction false} WayUpEnds(rows: seq<Row>, idx: map<int, nat>, way: seq<nat>, guard: nat)
    requires Indexed(rows, idx) && Climbs(rows, way) && |way| <= guard + 1
    requires |way| < guard + 1 ==> IsRoot(idx, rows[way[|way| - 1]])
    ensures RootAt(rows, idx, way[0], guard) == way[|way| - 1]
    decreases guard
  {
    var start := way[0];
    RootIs(rows, idx, start);
    if |way| > 1 {
      assert rows[way[1 - 1]].parent == Some(rows[way[1]].id) && !IsRoot(idx, rows[start]);
      SameId(rows, ParentAt(rows, idx, way[0]), way[1]);
      WayUpEnds(rows, idx, way[1..], guard - 1);
    }
  }

  lemma {:induction false} WayUp(rows: seq<Row>, idx: map<int, nat>, i: nat, guard: nat) returns (way: seq<nat>)
    requires Indexed(rows, idx) && i < |rows|
    ensures Climbs(rows, way) && way[0] == i && |way| <= guard + 1
    ensures |way| < guard + 1 ==> IsRoot(idx, rows[way[|way| - 1]])
    decreases guard
  {
    RootIs(rows, idx, i);
    if guard == 0 || IsRoot(idx, rows[i]) {
      way := [i];
    } else {
      var rest := WayUp(rows, idx, ParentAt(rows, idx, i), guard - 1);
      way := [i] + rest;
    }
  }

  /** Whether the filter lets the event through that a way up ends with. */
  ghost predicate Passes(f: Filter, top: Row) {
    (f.kind == "" || top.kind == f.kind) && (f.outage == 0 || top.id == f.outage)
  }

  /** There is one way up from every row; where it ends decides which event the row counts for and whether it is
      selected. */
  ghost predicate CountsFor(rows: seq<Row>, f: Filter, i: nat, root: int, selected: bool)
    requires i < |rows|
  {
    && (exists way :: LeadsUp(rows, way, i))
    && (forall way :: LeadsUp(rows, way, i) ==>
          root == rows[way[|way| - 1]].id && (selected <==> Passes(f, rows[way[|way| - 1]])))
  }

  lemma {:induction false} WaysUp(rows: seq<Row>, idx: map<int, nat>, f: Filter, i: nat)
    requires Indexed(rows, idx) && i < |rows|
    ensures CountsFor(rows, f, i, rows[RootAt(rows, idx, i, GUARD)].id, Picked(rows, idx, f, i))
  {
    hide RootAt, IsRoot, ParentAt;
    var up := WayUp(rows, idx, i, GUARD);
    RootIs(rows, idx, up[|up| - 1]);
    assert LeadsUp(rows, up, i);
    forall way | LeadsUp(rows, way, i) ensures RootAt(rows, idx, i, GUARD) == way[|way| - 1] {
      RootIs(rows, idx, way[|way| - 1]);
      WayUpEnds(rows, idx, way, GUARD);
    }
  }

  class InfoSelection {
    var rows: seq<Row>
    var idx: map<int, nat>
    var rootIDs: seq<int>
    var activeRoots: set<int>
    var sel: seq<nat>

    /** Loads the rows of a period and selects those whose root event passes the filter. */
    constructor (rows: seq<Row>, f: Filter)
      requires ValidRows(rows)
      ensures this.rows == rows && Indexed(rows, idx) && idx == IndexOf(rows, |rows|)
      ensures |rootIDs| == |rows|
      ensures forall i :: 0 <= i < |rows| ==> rootIDs[i] == rows[RootAt(rows, idx, i, GUARD)].id
      ensures forall id :: id in activeRoots <==>
        exists i :: 0 <= i < |rows| && rows[i].Active() && rows[RootAt(rows, idx, i, GUARD)].id == id
      ensures sel == Selection(rows, idx, f, |rows|)
      ensures forall i: nat :: i < |rows| ==> CountsFor(rows, f, i, rootIDs[i], i in sel)
      ensures Ascends(sel, |rows|)
    {
      this.rows := rows;
      var index := BuildIndex(rows);
      var roots, live := FindRoots(rows, index);
      var picked := SelectRows(rows, index, roots, f);
      idx, rootIDs, activeRoots, sel := index, roots, live, picked;
      hide RootAt, Picked, CountsFor;
      forall i: nat | i < |rows| ensures CountsFor(rows, f, i, roots[i], i in picked) {
        WaysUp(rows, index, f, i);
      }
      SelectionAscends(rows, index, f, |rows|);
    }
  }

  method BuildIndex(rows: seq<Row>) returns (index: map<int, nat>)
    requires ValidRows(rows)
    ensures index == IndexOf(rows, |rows|) && Indexed(rows, index)
  {
    hide Indexed, ValidRows;
    index := map[];
    for i := 0 to |rows|
      invariant index == IndexOf(rows, i)
    {
      index := index[rows[i].id := i];
    }
    IndexIsExact(rows);
  }

  lemma {:induction false} IndexFacts(rows: seq<Row>, n: nat)
    requires n <= |rows|
    ensures var idx := IndexOf(rows, n);
      && (forall id :: id in idx ==> idx[id] < n && rows[idx[id]].id == id)
      && (forall i :: 0 <= i < n ==> rows[i].id in idx)
  {
    if n > 0 { IndexFacts(rows, n - 1); }
  }

  /** The index built in row order finds every row of a period. */
  lemma IndexIsExact(rows: seq<Row>)
    requires ValidRows(rows)
    ensures Indexed(rows, IndexOf(rows, |rows|))
  {
    IndexFacts(rows, |rows|);
    var idx := IndexOf(rows, |rows|);
    hide IndexOf;
    forall i: nat | i < |rows| ensures idx[rows[i].id] == i {
      SameId(rows, idx[rows[i].id], i);
    }
  }

  lemma SameId(rows: seq<Row>, a: nat, b: nat)
    requires ValidRows(rows) && a < |rows| && b < |rows| && rows[a].id == rows[b].id
    ensures a == b
  {
  }

  method FindRoots(rows: seq<Row>, idx: map<int, nat>) returns (roots: seq<int>, live: set<int>)
    requires Indexed(rows, idx)
    ensures |roots| == |rows|
    ensures forall i :: 0 <= i < |rows| ==> roots[i] == rows[RootAt(rows, idx, i, GUARD)].id
    ensures forall id :: id in live <==>
      exists i :: 0 <= i < |rows| && rows[i].Active() && rows[RootAt(rows, idx, i, GUARD)].id == id
  {
    hide RootAt;
    roots, live := [], {};
    for i := 0 to |rows|
      invariant |roots| == i
      invariant forall k :: 0 <= k < i ==> roots[k] == rows[RootAt(rows, idx, k, GUARD)].id
      invariant forall id :: id in live <==>
        exists k :: 0 <= k < i && rows[k].Active() && rows[RootAt(rows, idx, k, GUARD)].id == id
    {
      var cur := WalkToRoot(rows, idx, i);
      roots := roots + [rows[cur].id];
      if rows[i].Active() {
        live := live + {rows[cur].id};
      }
    }
  }

  method SelectRows(rows: seq<Row>, idx: map<int, nat>, roots: seq<int>, f: Filter) returns (picked: seq<nat>)
    requires Indexed(rows, idx) && |roots| == |rows|
    requires forall i :: 0 <= i < |rows| ==> roots[i] == rows[RootAt(rows, idx, i, GUARD)].id
    ensures picked == Selection(rows, idx, f, |rows|)
  {
    hide RootAt;
    picked := [];
    for i := 0 to |rows|
      invariant picked == Selection(rows, idx, f, i)
    {
      var ro := rows[idx[roots[i]]];
      if (f.kind == "" || ro.kind == f.kind) && (f.outage == 0 || roots[i] == f.outage) {
        picked := picked + [i];
      }
    }
  }

  method WalkToRoot(rows: seq<Row>, idx: map<int, nat>, i: nat) returns (cur: nat)
    requires i < |rows| && InRange(rows, idx)
    ensures cur == RootAt(rows, idx, i, GUARD)
  {
    cur := i;
    var guard := 0;
    while guard < GUARD && !IsRoot(idx, rows[cur])
      invariant cur < |rows| && 0 <= guard <= GUARD
      invariant RootAt(rows, idx, cur, GUARD - guard) == RootAt(rows, idx, i, GUARD)
      decreases GUARD - guard
    {
      cur := ParentAt(rows, idx, cur);
      guard := guard + 1;
    }
  }

  // ------------------------------------------------------------------ counting

  /** Restored is the difference, or zero when it would be negative. */
  function Restored(affected: int, off: int): int {
    if off <= affected then affected - off else 0
  }

  class InfoCount {
    var terdampak: int
    var padam: int
    var nyala: int

    constructor ()
      ensures terdampak == padam == nyala == 0
    {
      terdampak, padam, nyala := 0, 0, 0;
    }

    method Add(v: int, root: bool, active: bool)
      modifies this
      ensures terdampak == old(terdampak) + (if root then v else 0)
      ensures padam == old(padam) + (if active then v else 0)
      ensures nyala == old(nyala)
    {
      if root { terdampak := terdampak + v; }
      if active { padam := padam + v; }
    }

    method Finish()
      modifies this
      ensures terdampak == old(terdampak) && padam == old(padam)
      ensures nyala == Restored(terdampak, padam)
      ensures nyala + padam == terdampak || (nyala == 0 && padam > terdampak)
    {
      nyala := terdampak - padam;
      if nyala < 0 { nyala := 0; }
    }
  }

  function RootValue(rows: seq<Row>, idx: map<int, nat>, w: int -> nat): nat -> nat {
    (i: nat) => if i < |rows| && IsRoot(idx, rows[i]) then Sum(w, rows[i].affected) else 0
  }

  function ActiveValue(rows: seq<Row>, w: int -> nat): nat -> nat {
    (i: nat) => if i < |rows| && rows[i].Active() then Sum(w, rows[i].affected) else 0
  }

  /** One level of the dashboard: every selected event is added, then the count is finished. */
  method CountLevel(rows: seq<Row>, idx: map<int, nat>, sel: seq<nat>, w: int -> nat) returns (count: InfoCount)
    requires Within(sel, |rows|)
    ensures fresh(count)
    ensures count.terdampak == Sum(RootValue(rows, idx, w), sel)
    ensures count.padam == Sum(ActiveValue(rows, w), sel)
    ensures count.nyala == Restored(count.terdampak, count.padam)
    ensures count.nyala + count.padam == count.terdampak || (count.nyala == 0 && count.padam > count.terdampak)
  {
    count := new InfoCount();
    for k := 0 to |sel|
      invariant fresh(count)
      invariant count.terdampak == Sum(RootValue(rows, idx, w), sel[..k])
      invariant count.padam == Sum(ActiveValue(rows, w), sel[..k])
    {
      var i := sel[k];
      assert i in sel;
      SumSnoc(RootValue(rows, idx, w), sel[..k], i);
      SumSnoc(ActiveValue(rows, w), sel[..k], i);
      assert sel[..k + 1] == sel[..k] + [i];
      count.Add(Sum(w, rows[i].affected), IsRoot(idx, rows[i]), rows[i].Active());
    }
    assert sel[..|sel|] == sel;
    count.Finish();
  }

  // ------------------------------------------------------------------ off never exceeds affected

  /** The nodes of the chosen events of a selection, one event after the other. */
  function Gather(rows: seq<Row>, chosen: nat -> bool, sel: seq<nat>): (nodes: seq<int>)
    requires Within(sel, |rows|)
  {
    if sel == [] then []
    else
      var last := sel[|sel| - 1];
      Gather(rows, chosen, sel[..|sel| - 1]) + if chosen(last) then rows[last].affected else []
  }

  lemma {:induction false} GatherMembers(rows: seq<Row>, chosen: nat -> bool, sel: seq<nat>, n: int)
    requires Within(sel, |rows|)
    ensures n in Gather(rows, chosen, sel) <==> exists i: nat :: i in sel && chosen(i) && n in rows[i].affected
  {
    if sel != [] {
      var last, init := sel[|sel| - 1], sel[..|sel| - 1];
      GatherMembers(rows, chosen, init, n);
      assert forall i :: i in sel <==> i in init || i == last;
      assert last in sel;
    }
  }

  lemma {:induction false} GatherDistinct(rows: seq<Row>, chosen: nat -> bool, sel: seq<nat>)
    requires Distinct(sel) && Within(sel, |rows|) && forall i :: 0 <= i < |rows| ==> Distinct(rows[i].affected)
    requires forall i: nat, j: nat, n | i in sel && j in sel && i != j && chosen(i) && chosen(j) ::
      n in rows[i].affected ==> n !in rows[j].affected
    ensures Distinct(Gather(rows, chosen, sel))
  {
    if sel != [] {
      var last, init := sel[|sel| - 1], sel[..|sel| - 1];
      assert last in sel && last !in init;
      GatherDistinct(rows, chosen, init);
      if chosen(last) {
        forall n | n in Gather(rows, chosen, init) ensures n !in rows[last].affected {
          GatherMembers(rows, chosen, init, n);
        }
        DistinctConcat(Gather(rows, chosen, init), rows[last].affected);
      }
    }
  }

  lemma {:induction false} GatherSum(rows: seq<Row>, chosen: nat -> bool, sel: seq<nat>, w: int -> nat, v: nat -> nat)
    requires Within(sel, |rows|)
    requires forall i: nat :: i in sel ==> v(i) == if chosen(i) then Sum(w, rows[i].affected) else 0
    ensures Sum(w, Gather(rows, chosen, sel)) == Sum(v, sel)
  {
    if sel != [] {
      var last, init := sel[|sel| - 1], sel[..|sel| - 1];
      assert last in sel && sel == init + [last];
      GatherSum(rows, chosen, init, w, v);
      SumSnoc(v, init, last);
      if chosen(last) {
        SumAppend(w, Gather(rows, chosen, init), rows[last].affected);
      } else {
        assert Gather(rows, chosen, sel) == Gather(rows, chosen, init);
      }
    }
  }

  /** What the ledger guarantees about the rows loaded from it, whichever they are. */
  ghost predicate SoundRows(rows: seq<Row>, idx: map<int, nat>)
    requires Indexed(rows, idx)
  {
    && (forall i :: 0 <= i < |rows| ==> Distinct(rows[i].affected))
    && (forall i: nat, j: nat, n | i < |rows| && j < |rows| && i != j && rows[i].Active() && rows[j].Active() ::
          n in rows[i].affected ==> n !in rows[j].affected)
    && (forall i: nat, n | i < |rows| && !IsRoot(idx, rows[i]) ::
          n in rows[i].affected ==> n in rows[ParentAt(rows, idx, i)].affected)
  }

  lemma {:induction false} TopHoldsAll(rows: seq<Row>, idx: map<int, nat>, i: nat, n: int)
    requires Indexed(rows, idx) && SoundRows(rows, idx) && i < |rows| && n in rows[i].affected
    ensures n in rows[Top(rows, idx, i)].affected
    decreases if rows[i].id < 0 then 0 else rows[i].id
  {
    if !IsRoot(idx, rows[i]) {
      TopHoldsAll(rows, idx, ParentAt(rows, idx, i), n);
    }
  }

  /** Whatever selection holds the root of each of its active events that weigh anything: what is off is within what
      the roots affect. */
  lemma OffWithinAffected(rows: seq<Row>, idx: map<int, nat>, sel: seq<nat>, w: int -> nat)
    requires Indexed(rows, idx) && SoundRows(rows, idx)
    requires Distinct(sel) && Within(sel, |rows|)
    requires forall i: nat :: i in sel && rows[i].Active() && Sum(w, rows[i].affected) > 0 ==> Top(rows, idx, i) in sel
    ensures Sum(ActiveValue(rows, w), sel) <= Sum(RootValue(rows, idx, w), sel)
  {
    var off := (i: nat) => i < |rows| && rows[i].Active() && Sum(w, rows[i].affected) > 0;
    var root := (i: nat) => i < |rows| && IsRoot(idx, rows[i]);
    GatherSum(rows, off, sel, w, ActiveValue(rows, w));
    GatherSum(rows, root, sel, w, RootValue(rows, idx, w));
    GatherDistinct(rows, off, sel);
    forall n | n in Gather(rows, off, sel) ensures n in Gather(rows, root, sel) {
      GatherMembers(rows, off, sel, n);
      var i: nat :| i in sel && off(i) && n in rows[i].affected;
      TopHoldsAll(rows, idx, i, n);
      assert Top(rows, idx, i) in sel && root(Top(rows, idx, i));
      GatherMembers(rows, root, sel, n);
    }
    SumOfPart(w, Gather(rows, off, sel), Gather(rows, root, sel));
  }

  ghost predicate WithinGuard(rows: seq<Row>, idx: map<int, nat>, w: int -> nat)
    requires Indexed(rows, idx)
  {
    forall i: nat :: i < |rows| && rows[i].Active() && Sum(w, rows[i].affected) > 0 ==> Depth(rows, idx, i) <= GUARD
  }

  ghost predicate NeverClamped(rows: seq<Row>, idx: map<int, nat>, w: int -> nat, f: Filter)
    requires Indexed(rows, idx)
  {
    var sel := Selection(rows, idx, f, |rows|);
    Sum(ActiveValue(rows, w), sel) <= Sum(RootValue(rows, idx, w), sel)
  }

  lemma SelectionHoldsTops(rows: seq<Row>, idx: map<int, nat>, f: Filter, i: nat)
    requires Indexed(rows, idx) && i < |rows| && Depth(rows, idx, i) <= GUARD
    requires i in Selection(rows, idx, f, |rows|)
    ensures Top(rows, idx, i) in Selection(rows, idx, f, |rows|)
  {
    GuardedRootIff(rows, idx, i, GUARD);
    assert Picked(rows, idx, f, i);
    assert Picked(rows, idx, f, Top(rows, idx, i));
  }

  /** Filtering for the event where the guarded walk from `i` stopped short selects `i` but no root event at all. */
  lemma StoppedShort(rows: seq<Row>, idx: map<int, nat>, w: int -> nat, i: nat)
    requires Indexed(rows, idx)
    requires i < |rows| && rows[i].Active() && Sum(w, rows[i].affected) > 0 && Depth(rows, idx, i) > GUARD
    ensures !NeverClamped(rows, idx, w, Filter("", rows[RootAt(rows, idx, i, GUARD)].id))
  {
    var r := RootAt(rows, idx, i, GUARD);
    GuardedRootIff(rows, idx, i, GUARD);
    ParentsHaveIds(rows, idx, i, GUARD);
    var f := Filter("", rows[r].id);
    var sel := Selection(rows, idx, f, |rows|);
    forall j: nat | j in sel ensures RootValue(rows, idx, w)(j) == 0 {
      if IsRoot(idx, rows[j]) {
        assert RootAt(rows, idx, j, GUARD) == j;
        SameId(rows, r, j);
      }
    }
    AllZero(RootValue(rows, idx, w), sel);
    assert Picked(rows, idx, f, i) && i in sel;
    SumAtLeast(ActiveValue(rows, w), sel, i);
  }

  /** An event that has a loaded continuation has a positive id, so it can be asked for. */
  lemma {:induction false} ParentsHaveIds(rows: seq<Row>, idx: map<int, nat>, i: nat, guard: nat)
    requires Indexed(rows, idx) && i < |rows|
    ensures var r := RootAt(rows, idx, i, guard); !IsRoot(idx, rows[r]) ==> rows[r].id > 0
    decreases guard
  {
    if guard > 0 && !IsRoot(idx, rows[i]) {
      ParentsHaveIds(rows, idx, ParentAt(rows, idx, i), guard - 1);
    }
  }

  lemma {:induction false} AllZero(v: nat -> nat, sel: seq<nat>)
    requires forall j: nat :: j in sel ==> v(j) == 0
    ensures Sum(v, sel) == 0
  {
    if sel != [] {
      assert sel[0] in sel;
      AllZero(v, sel[1..]);
    }
  }

  lemma {:induction false} SumAtLeast(v: nat -> nat, sel: seq<nat>, i: nat)
    requires i in sel
    ensures Sum(v, sel) >= v(i)
  {
    if sel[0] != i {
      SumAtLeast(v, sel[1..], i);
    }
  }

  /** What is off stays within what is affected under every filter, exactly when no active event that weighs
      anything has more than 64 loaded ancestors. */
  lemma NeverClampedIff(rows: seq<Row>, idx: map<int, nat>, w: int -> nat)
    requires Indexed(rows, idx) && SoundRows(rows, idx)
    ensures (forall f :: NeverClamped(rows, idx, w, f)) <==> WithinGuard(rows, idx, w)
  {
    if WithinGuard(rows, idx, w) {
      forall f ensures NeverClamped(rows, idx, w, f) {
        var sel := Selection(rows, idx, f, |rows|);
        SelectionDistinct(rows, idx, f, |rows|);
        forall i: nat | i in sel && rows[i].Active() && Sum(w, rows[i].affected) > 0
          ensures Top(rows, idx, i) in sel
        {
          SelectionHoldsTops(rows, idx, f, i);
        }
        OffWithinAffected(rows, idx, sel, w);
      }
    } else {
      var i: nat :| i < |rows| && rows[i].Active() && Sum(w, rows[i].affected) > 0 && Depth(rows, idx, i) > GUARD;
      StoppedShort(rows, idx, w, i);
    }
  }

  /** Without a filter the length of the chains does not matter. */
  lemma UnfilteredNeverClamped(rows: seq<Row>, idx: map<int, nat>, w: int -> nat)
    requires Indexed(rows, idx) && SoundRows(rows, idx)
    ensures NeverClamped(rows, idx, w, Filter("", 0))
  {
    SelectionDistinct(rows, idx, Filter("", 0), |rows|);
    OffWithinAffected(rows, idx, Selection(rows, idx, Filter("", 0), |rows|), w);
  }

  // ------------------------------------------------------------------ rows of a ledger

  /** The record of the event at place `i` of the outage table; ids count from 1. */
  function RowOf(outages: seq<Outage>, i: nat): Row
    requires i < |outages|
  {
    var o := outages[i];
    Row(i + 1, if o.parent.Some? then Some(o.parent.value + 1) else None, o.kind, o.start, o.end, o.affected)
  }

  /** Any part of the table, loaded in any order. */
  ghost predicate LoadedFrom(outages: seq<Outage>, places: seq<nat>, rows: seq<Row>) {
    && Distinct(places) && |rows| == |places|
    && forall k :: 0 <= k < |rows| ==> places[k] < |outages| && rows[k] == RowOf(outages, places[k])
  }

  /** Whatever part of a sound ledger is loaded, the rows satisfy what the counting relies on. */
  lemma LoadedIsSound(net: Network, s: State, places: seq<nat>, rows: seq<Row>, idx: map<int, nat>)
    requires Sound(net, s) && LoadedFrom(s.outages, places, rows)
    ensures ValidRows(rows)
    ensures Indexed(rows, idx) ==> SoundRows(rows, idx)
  {
    hide Live;
    if Indexed(rows, idx) {
      forall i: nat, n | i < |rows| && !IsRoot(idx, rows[i]) && n in rows[i].affected
        ensures n in rows[ParentAt(rows, idx, i)].affected
      {
        var p := ParentAt(rows, idx, i);
        assert rows[p].id == places[p] + 1 == s.outages[places[i]].parent.value + 1;
      }
    }
  }

  /** The three figures of a level add up: affected is off plus restored. */
  ghost predicate AddsUp(rows: seq<Row>, idx: map<int, nat>, w: int -> nat, f: Filter)
    requires Indexed(rows, idx)
  {
    var sel := Selection(rows, idx, f, |rows|);
    var affected, off := Sum(RootValue(rows, idx, w), sel), Sum(ActiveValue(rows, w), sel);
    affected == off + Restored(affected, off)
  }

  /** The figures add up exactly when the clamp does not fire. */
  lemma AddsUpIff(rows: seq<Row>, idx: map<int, nat>, w: int -> nat, f: Filter)
    requires Indexed(rows, idx)
    ensures AddsUp(rows, idx, w, f) <==> NeverClamped(rows, idx, w, f)
  {
  }

  /** In every state of every run, for whatever part of the table is loaded: without a filter affected is off plus
      restored, and with filters it always is exactly when no chain outruns the guard.
      The weight may count customers, substations or anything else that nodes carry. */
  lemma DashboardAddsUp(net: Network, states: seq<State>, cmds: seq<Command>, k: nat,
                        places: seq<nat>, rows: seq<Row>, w: int -> nat)
    requires IsRun(net, states, cmds) && k < |states| && LoadedFrom(states[k].outages, places, rows)
    ensures var idx := IndexOf(rows, |rows|);
      && Indexed(rows, idx)
      && AddsUp(rows, idx, w, Filter("", 0))
      && ((forall f :: AddsUp(rows, idx, w, f)) <==> WithinGuard(rows, idx, w))
  {
    hide Live, Step, Sound, AddsUp, NeverClamped, WithinGuard, Indexed, IndexOf, SoundRows, LoadedFrom, ValidRows;
    RunIsSound(net, states, cmds);
    var idx := IndexOf(rows, |rows|);
    LoadedIsSound(net, states[k], places, rows, idx);
    IndexIsExact(rows);
    UnfilteredNeverClamped(rows, idx, w);
    NeverClampedIff(rows, idx, w);
    forall f ensures AddsUp(rows, idx, w, f) <==> NeverClamped(rows, idx, w, f) {
      AddsUpIff(rows, idx, w, f);
    }
  }
}
