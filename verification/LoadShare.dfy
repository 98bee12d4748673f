/** Sharing a feeder's reference load among the customers an outage affects, over exact numbers. */
module LoadShare {
  import opened Listings
  import opened Orders

  /** Reference load of a feeder (apparent and active) and where it comes from. */
  datatype FeederRef = FeederRef(va: real, w: real, source: string)

  datatype FeederAlloc = FeederAlloc(
    id: int, contractVA: real, totalVA: real, feederVA: real, feederW: real, factorS: real, factorP: real,
    source: string, va: real, w: real)

  datatype LoadAlloc = LoadAlloc(contractVA: real, va: real, w: real, sources: map<string, nat>,
                                 feeders: seq<FeederAlloc>)

  const ESTIMATE := "estimasi"

  function ClampFactor(x: real): (r: real)
    ensures 0.05 <= r <= 3.0
    ensures 0.05 <= x <= 3.0 ==> r == x
  {
    var low := if x < 3.0 then x else 3.0;
    if low > 0.05 then low else 0.05
  }

  function At(m: map<int, real>, id: int): real {
    if id in m then m[id] else 0.0
  }

  /** The feeder's load is used only when the feeder, its contract power and both loads are known. */
  predicate Referenced(base: map<int, real>, refs: map<int, FeederRef>, id: int) {
    id in refs && id != 0 && At(base, id) > 0.0 && refs[id].va > 0.0 && refs[id].w > 0.0
  }

  function Ratio(a: real, b: real): real
    requires b > 0.0
  {
    a / b
  }

  function Times(a: real, b: real): real {
    a * b
  }

  /** The factors of a feeder do not depend on how much of it is affected. */
  function FactorS(base: map<int, real>, refs: map<int, FeederRef>, lf: real, id: int): real {
    if Referenced(base, refs, id) then ClampFactor(Ratio(refs[id].va, At(base, id))) else lf
  }

  function FactorP(base: map<int, real>, refs: map<int, FeederRef>, lf: real, pf: real, id: int): real {
    if Referenced(base, refs, id) then ClampFactor(Ratio(refs[id].w, At(base, id))) else Times(lf, pf)
  }

  function SourceOf(base: map<int, real>, refs: map<int, FeederRef>, id: int): string {
    if Referenced(base, refs, id) then refs[id].source else ESTIMATE
  }

  function Affected(byFeeder: map<int, real>): set<int> {
    set id | id in byFeeder && byFeeder[id] > 0.0
  }

  function RealSum(f: int -> real, ids: seq<int>): real {
    if ids == [] then 0.0 else RealSum(f, ids[..|ids| - 1]) + f(ids[|ids| - 1])
  }

  function Contract(byFeeder: map<int, real>): int -> real {
    (id: int) => At(byFeeder, id)
  }

  function ShareVA(byFeeder: map<int, real>, base: map<int, real>, refs: map<int, FeederRef>, lf: real): int -> real {
    (id: int) => Times(At(byFeeder, id), FactorS(base, refs, lf, id))
  }

  function ShareW(byFeeder: map<int, real>, base: map<int, real>, refs: map<int, FeederRef>, lf: real,
                  pf: real): int -> real {
    (id: int) => Times(At(byFeeder, id), FactorP(base, refs, lf, pf, id))
  }

  function CountSource(base: map<int, real>, refs: map<int, FeederRef>, source: string, ids: seq<int>): nat {
    if ids == [] then 0
    else
      CountSource(base, refs, source, ids[..|ids| - 1])
      + if SourceOf(base, refs, ids[|ids| - 1]) == source then 1 else 0
  }

  /** A row of the result says what its feeder contributes and why. */
  ghost predicate RowFor(byFeeder: map<int, real>, base: map<int, real>, refs: map<int, FeederRef>, lf: real, pf: real,
                         id: int, f: FeederAlloc) {
    && f.id == id && f.contractVA == At(byFeeder, id) && f.totalVA == At(base, id)
    && f.source == SourceOf(base, refs, id)
    && f.factorS == FactorS(base, refs, lf, id) && f.factorP == FactorP(base, refs, lf, pf, id)
    && f.feederVA == (if Referenced(base, refs, id) then refs[id].va else 0.0)
    && f.feederW == (if Referenced(base, refs, id) then refs[id].w else 0.0)
    && f.va == Times(f.contractVA, f.factorS) && f.w == Times(f.contractVA, f.factorP)
  }

  /** The result lists the affected feeders in ascending order, and its totals are the sums over its rows. */
  ghost predicate IsAllocation(byFeeder: map<int, real>, base: map<int, real>, refs: map<int, FeederRef>,
                               lf: real, pf: real, ids: seq<int>, a: LoadAlloc) {
    && Sorted(Less, ids) && |a.feeders| == |ids|
    && (forall k :: 0 <= k < |ids| ==> RowFor(byFeeder, base, refs, lf, pf, ids[k], a.feeders[k]))
    && a.contractVA == RealSum(Contract(byFeeder), ids)
    && a.va == RealSum(ShareVA(byFeeder, base, refs, lf), ids)
    && a.w == RealSum(ShareW(byFeeder, base, refs, lf, pf), ids)
    && (forall s :: s in a.sources <==> CountSource(base, refs, s, ids) > 0)
    && (forall s :: s in a.sources ==> a.sources[s] == CountSource(base, refs, s, ids))
  }

  method AllocateOne(byFeeder: map<int, real>, base: map<int, real>, refs: map<int, FeederRef>, lf: real, pf: real,
                     id: int) returns (f: FeederAlloc)
    ensures RowFor(byFeeder, base, refs, lf, pf, id, f)
  {
    hide Times, Ratio, ClampFactor;
    f := FeederAlloc(id, At(byFeeder, id), At(base, id), 0.0, 0.0, lf, Times(lf, pf), ESTIMATE, 0.0, 0.0);
    if id in refs && id != 0 && f.totalVA > 0.0 && refs[id].va > 0.0 && refs[id].w > 0.0 {
      var r := refs[id];
      f := f.(feederVA := r.va, feederW := r.w, source := r.source);
      f := f.(factorS := ClampFactor(Ratio(r.va, f.totalVA)), factorP := ClampFactor(Ratio(r.w, f.totalVA)));
    }
    f := f.(va := Times(f.contractVA, f.factorS), w := Times(f.contractVA, f.factorP));
  }

  function AddRow(a: LoadAlloc, f: FeederAlloc): LoadAlloc {
    LoadAlloc(a.contractVA + f.contractVA, a.va + f.va, a.w + f.w,
              a.sources[f.source := (if f.source in a.sources then a.sources[f.source] else 0) + 1], a.feeders + [f])
  }

  lemma SumsGrow(f: int -> real, ids: seq<int>, id: int)
    ensures RealSum(f, ids + [id]) == RealSum(f, ids) + f(id)
  {
    assert (ids + [id])[..|ids|] == ids;
  }

  lemma CountGrows(base: map<int, real>, refs: map<int, FeederRef>, source: string, ids: seq<int>, id: int)
    ensures CountSource(base, refs, source, ids + [id])
         == CountSource(base, refs, source, ids) + if SourceOf(base, refs, id) == source then 1 else 0
  {
    assert (ids + [id])[..|ids|] == ids;
  }

  lemma AllocationGrows(byFeeder: map<int, real>, base: map<int, real>, refs: map<int, FeederRef>, lf: real, pf: real,
                        ids: seq<int>, a: LoadAlloc, id: int, f: FeederAlloc)
    requires IsAllocation(byFeeder, base, refs, lf, pf, ids, a) && RowFor(byFeeder, base, refs, lf, pf, id, f)
    requires Sorted(Less, ids + [id])
    ensures IsAllocation(byFeeder, base, refs, lf, pf, ids + [id], AddRow(a, f))
  {
    hide Times, FactorS, FactorP, Referenced, SourceOf;
    hide RealSum, CountSource, Sorted, Less;
    SumsGrow(Contract(byFeeder), ids, id);
    SumsGrow(ShareVA(byFeeder, base, refs, lf), ids, id);
    SumsGrow(ShareW(byFeeder, base, refs, lf, pf), ids, id);
    forall s ensures CountSource(base, refs, s, ids + [id])
                  == CountSource(base, refs, s, ids) + if f.source == s then 1 else 0 {
      CountGrows(base, refs, s, ids, id);
    }
  }

  lemma SameListing(a: seq<int>, b: seq<int>, members: set<int>)
    requires Lists(a, members) && Distinct(b) && forall x :: x in b <==> x in a
    ensures Lists(b, members)
  {
    forall x ensures x in b <==> x in members {
      assert x in a <==> x in members;
    }
  }

  lemma NothingAllocated(byFeeder: map<int, real>, base: map<int, real>, refs: map<int, FeederRef>, lf: real, pf: real)
    ensures IsAllocation(byFeeder, base, refs, lf, pf, [], LoadAlloc(0.0, 0.0, 0.0, map[], []))
  {
  }

  method Allocate(byFeeder: map<int, real>, base: map<int, real>, refs: map<int, FeederRef>, lf: real, pf: real)
    returns (a: LoadAlloc)
    ensures exists ids :: Lists(ids, Affected(byFeeder)) && IsAllocation(byFeeder, base, refs, lf, pf, ids, a)
  {
    var listed := ListSet(Affected(byFeeder));
    var order := SortIds(listed);
    AscendingIsSorted(order);
    SameListing(listed, order, Affected(byFeeder));
    a := LoadAlloc(0.0, 0.0, 0.0, map[], []);
    ghost var done: seq<int> := [];
    NothingAllocated(byFeeder, base, refs, lf, pf);
    hide IsAllocation, RowFor, RealSum, CountSource, Times, AddRow;
    for i := 0 to |order|
      invariant done == order[..i] && IsAllocation(byFeeder, base, refs, lf, pf, done, a)
    {
      var f := AllocateOne(byFeeder, base, refs, lf, pf, order[i]);
      AllocationGrows(byFeeder, base, refs, lf, pf, done, a, order[i], f);
      done := done + [order[i]];
      a := AddRow(a, f);
    }
    assert done == order && IsAllocation(byFeeder, base, refs, lf, pf, order, a);
  }

  // ------------------------------------------------------------------ what the allocation promises

  lemma {:induction false} RealSumSame(f: int -> real, g: int -> real, ids: seq<int>)
    requires forall k :: 0 <= k < |ids| ==> f(ids[k]) == g(ids[k])
    ensures RealSum(f, ids) == RealSum(g, ids)
  {
    if ids != [] { RealSumSame(f, g, ids[..|ids| - 1]); }
  }

  lemma {:induction false} RealSumAdd(f: int -> real, g: int -> real, h: int -> real, ids: seq<int>)
    requires forall k :: 0 <= k < |ids| ==> h(ids[k]) == f(ids[k]) + g(ids[k])
    ensures RealSum(h, ids) == RealSum(f, ids) + RealSum(g, ids)
  {
    if ids != [] { RealSumAdd(f, g, h, ids[..|ids| - 1]); }
  }

  lemma {:induction false} RealSumRemove(f: int -> real, ids: seq<int>, k: nat)
    requires k < |ids|
    ensures RealSum(f, ids) == RealSum(f, ids[..k] + ids[k + 1..]) + f(ids[k])
    decreases |ids|
  {
    var n := |ids| - 1;
    if k < n {
      RealSumRemove(f, ids[..n], k);
      var rest := ids[..k] + ids[k + 1..];
      assert rest[..n - 1] == ids[..n][..k] + ids[..n][k + 1..];
    } else {
      assert ids[..k] + ids[k + 1..] == ids[..n];
    }
  }

  /** Feeders that contribute nothing may be listed or not. */
  lemma {:induction false} RealSumOfSupport(f: int -> real, part: seq<int>, whole: seq<int>)
    requires Distinct(part) && Distinct(whole) && forall x :: x in part ==> x in whole
    requires forall x :: x in whole && x !in part ==> f(x) == 0.0
    ensures RealSum(f, part) == RealSum(f, whole)
    decreases |whole|
  {
    if whole == [] {
      if |part| > 0 {
        var x := SomeMember(part);
        assert false;
      }
    } else {
      var n := |whole| - 1;
      var x := whole[n];
      assert x in whole;
      if x in part {
        var k :| 0 <= k < |part| && part[k] == x;
        var rest := part[..k] + part[k + 1..];
        RealSumRemove(f, part, k);
        RestOf(part, k);
        forall y | y in rest ensures y in whole[..n] {
          assert y in whole;
        }
        RealSumOfSupport(f, rest, whole[..n]);
      } else {
        forall y | y in part ensures y in whole[..n] {
          assert y in whole;
        }
        RealSumOfSupport(f, part, whole[..n]);
      }
    }
  }

  /** The result depends only on what the maps hold: there is one order of the feeders, hence one list of rows. */
  lemma AllocationUnique(byFeeder: map<int, real>, base: map<int, real>, refs: map<int, FeederRef>, lf: real, pf: real,
                         ids: seq<int>, a: LoadAlloc, ids': seq<int>, a': LoadAlloc)
    requires Lists(ids, Affected(byFeeder)) && IsAllocation(byFeeder, base, refs, lf, pf, ids, a)
    requires Lists(ids', Affected(byFeeder)) && IsAllocation(byFeeder, base, refs, lf, pf, ids', a')
    ensures a == a'
  {
    hide Times, FactorS, FactorP, Referenced, SourceOf, RealSum, CountSource, Affected;
    SortedUnique(Less, ids, ids');
    forall k | 0 <= k < |ids| ensures a.feeders[k] == a'.feeders[k] {
      assert RowFor(byFeeder, base, refs, lf, pf, ids[k], a.feeders[k]);
      assert RowFor(byFeeder, base, refs, lf, pf, ids[k], a'.feeders[k]);
    }
    assert a.feeders == a'.feeders;
    assert a.sources == a'.sources;
  }

  ghost predicate Splits(whole: map<int, real>, one: map<int, real>, two: map<int, real>) {
    forall id :: At(one, id) >= 0.0 && At(two, id) >= 0.0 && At(whole, id) == At(one, id) + At(two, id)
  }

  /** Splitting the affected contract power between two events splits the allocated load. */
  lemma AllocationAdditive(whole: map<int, real>, one: map<int, real>, two: map<int, real>,
                           base: map<int, real>, refs: map<int, FeederRef>, lf: real, pf: real,
                           ids: seq<int>, a: LoadAlloc, ids1: seq<int>, a1: LoadAlloc, ids2: seq<int>, a2: LoadAlloc)
    requires Splits(whole, one, two)
    requires Lists(ids, Affected(whole)) && IsAllocation(whole, base, refs, lf, pf, ids, a)
    requires Lists(ids1, Affected(one)) && IsAllocation(one, base, refs, lf, pf, ids1, a1)
    requires Lists(ids2, Affected(two)) && IsAllocation(two, base, refs, lf, pf, ids2, a2)
    ensures a.contractVA == a1.contractVA + a2.contractVA
    ensures a.va == a1.va + a2.va && a.w == a1.w + a2.w
  {
    hide FactorS, FactorP, Times, RealSum, Affected, Splits, RowFor;
    forall id: int ensures Contract(whole)(id) == Contract(one)(id) + Contract(two)(id) {
      SplitAt(whole, one, two, id);
    }
    SplitSum(whole, one, two, ids, ids1, ids2, Contract(whole), Contract(one), Contract(two));
    SharesVA(whole, one, two, base, refs, lf);
    SplitSum(whole, one, two, ids, ids1, ids2,
             ShareVA(whole, base, refs, lf), ShareVA(one, base, refs, lf), ShareVA(two, base, refs, lf));
    SharesW(whole, one, two, base, refs, lf, pf);
    SplitSum(whole, one, two, ids, ids1, ids2,
             ShareW(whole, base, refs, lf, pf), ShareW(one, base, refs, lf, pf), ShareW(two, base, refs, lf, pf));
  }

  lemma SplitAt(whole: map<int, real>, one: map<int, real>, two: map<int, real>, id: int)
    requires Splits(whole, one, two)
    ensures At(one, id) >= 0.0 && At(two, id) >= 0.0 && At(whole, id) == At(one, id) + At(two, id)
  {
  }

  /** The shares of the parts add up, and a part without contract power has no share. */
  ghost predicate Adds(one: map<int, real>, two: map<int, real>, f: int -> real, f1: int -> real, f2: int -> real) {
    forall id: int :: f(id) == f1(id) + f2(id)
      && (At(one, id) == 0.0 ==> f1(id) == 0.0) && (At(two, id) == 0.0 ==> f2(id) == 0.0)
  }

  lemma SharesVA(whole: map<int, real>, one: map<int, real>, two: map<int, real>,
                 base: map<int, real>, refs: map<int, FeederRef>, lf: real)
    requires Splits(whole, one, two)
    ensures Adds(one, two, ShareVA(whole, base, refs, lf), ShareVA(one, base, refs, lf), ShareVA(two, base, refs, lf))
  {
    forall id: int
      ensures ShareVA(whole, base, refs, lf)(id) == ShareVA(one, base, refs, lf)(id) + ShareVA(two, base, refs, lf)(id)
      ensures At(one, id) == 0.0 ==> ShareVA(one, base, refs, lf)(id) == 0.0
      ensures At(two, id) == 0.0 ==> ShareVA(two, base, refs, lf)(id) == 0.0
    {
      hide Splits, FactorS, Times;
      SplitAt(whole, one, two, id);
      Distribute(At(one, id), At(two, id), FactorS(base, refs, lf, id));
    }
  }

  lemma SharesW(whole: map<int, real>, one: map<int, real>, two: map<int, real>,
                base: map<int, real>, refs: map<int, FeederRef>, lf: real, pf: real)
    requires Splits(whole, one, two)
    ensures Adds(one, two, ShareW(whole, base, refs, lf, pf), ShareW(one, base, refs, lf, pf),
      ShareW(two, base, refs, lf, pf))
  {
    forall id: int
      ensures ShareW(whole, base, refs, lf, pf)(id)
           == ShareW(one, base, refs, lf, pf)(id) + ShareW(two, base, refs, lf, pf)(id)
      ensures At(one, id) == 0.0 ==> ShareW(one, base, refs, lf, pf)(id) == 0.0
      ensures At(two, id) == 0.0 ==> ShareW(two, base, refs, lf, pf)(id) == 0.0
    {
      hide Splits, FactorP, Times;
      SplitAt(whole, one, two, id);
      Distribute(At(one, id), At(two, id), FactorP(base, refs, lf, pf, id));
    }
  }

  lemma Distribute(a: real, b: real, f: real)
    ensures Times(a + b, f) == Times(a, f) + Times(b, f)
    ensures Times(0.0, f) == 0.0
  {
  }

  lemma SplitSum(whole: map<int, real>, one: map<int, real>, two: map<int, real>,
                 ids: seq<int>, ids1: seq<int>, ids2: seq<int>, f: int -> real, f1: int -> real, f2: int -> real)
    requires Splits(whole, one, two) && Adds(one, two, f, f1, f2)
    requires Lists(ids, Affected(whole)) && Lists(ids1, Affected(one)) && Lists(ids2, Affected(two))
    ensures RealSum(f, ids) == RealSum(f1, ids1) + RealSum(f2, ids2)
  {
    hide RealSum;
    PartListed(whole, one, two, ids, ids1, f1);
    PartListed(whole, two, one, ids, ids2, f2);
    forall k | 0 <= k < |ids| ensures f(ids[k]) == f1(ids[k]) + f2(ids[k]) {
      var id: int := ids[k];
      assert f(id) == f1(id) + f2(id);
    }
    RealSumAdd(f1, f2, f, ids);
  }

  lemma PartListed(whole: map<int, real>, one: map<int, real>, two: map<int, real>,
                   ids: seq<int>, ids1: seq<int>, f1: int -> real)
    requires forall id :: At(one, id) >= 0.0 && At(two, id) >= 0.0 && At(whole, id) == At(one, id) + At(two, id)
    requires Lists(ids, Affected(whole)) && Lists(ids1, Affected(one))
    requires forall id: int :: At(one, id) == 0.0 ==> f1(id) == 0.0
    ensures RealSum(f1, ids1) == RealSum(f1, ids)
  {
    hide RealSum;
    forall id | id in ids1 ensures id in ids {
      assert At(whole, id) == At(one, id) + At(two, id);
    }
    forall id | id in ids && id !in ids1 ensures f1(id) == 0.0 {
      assert At(one, id) == 0.0;
    }
    assert forall x: int :: x in ids && x !in ids1 ==> f1(x) == 0.0;
    RealSumOfSupport(f1, ids1, ids);
  }

  /** A share taken from a feeder's load stays between 0.05 and 3 times the affected contract power; and when the whole
      feeder is affected and the factor is within bounds, the share is the feeder's whole load. */
  lemma ShareBounds(byFeeder: map<int, real>, base: map<int, real>, refs: map<int, FeederRef>, lf: real, pf: real,
                    id: int, f: FeederAlloc)
    requires RowFor(byFeeder, base, refs, lf, pf, id, f) && Referenced(base, refs, id) && At(byFeeder, id) >= 0.0
    ensures 0.05 * f.contractVA <= f.va <= 3.0 * f.contractVA
    ensures 0.05 * f.contractVA <= f.w <= 3.0 * f.contractVA
    ensures f.contractVA == f.totalVA && 0.05 <= Ratio(refs[id].va, f.totalVA) <= 3.0 ==> f.va == refs[id].va
    ensures f.contractVA == f.totalVA && 0.05 <= Ratio(refs[id].w, f.totalVA) <= 3.0 ==> f.w == refs[id].w
  {
    hide Times, Ratio;
    TimesBetween(f.contractVA, f.factorS);
    TimesBetween(f.contractVA, f.factorP);
    DivideTimes(refs[id].va, f.totalVA);
    DivideTimes(refs[id].w, f.totalVA);
  }

  /** One row, told in full. A feeder whose load is known: its load over its contract power, kept between 0.05 and 3,
      is the factor. Any other feeder: the factors of the estimate. Either way the affected contract power is
      multiplied. */
  lemma {:induction false} RowMeans(byFeeder: map<int, real>, base: map<int, real>, refs: map<int, FeederRef>, lf: real,
                                    pf: real, id: int, f: FeederAlloc)
    requires RowFor(byFeeder, base, refs, lf, pf, id, f)
    ensures f.id == id && f.contractVA == (if id in byFeeder then byFeeder[id] else 0.0)
    ensures f.totalVA == (if id in base then base[id] else 0.0)
    ensures f.va == f.contractVA * f.factorS && f.w == f.contractVA * f.factorP
    ensures id in refs && id != 0 && f.totalVA > 0.0 && refs[id].va > 0.0 && refs[id].w > 0.0 ==>
      && f.feederVA == refs[id].va && f.feederW == refs[id].w && f.source == refs[id].source
      && IsFactor(f.factorS, refs[id].va, f.totalVA) && IsFactor(f.factorP, refs[id].w, f.totalVA)
    ensures !(id in refs && id != 0 && f.totalVA > 0.0 && refs[id].va > 0.0 && refs[id].w > 0.0) ==>
      && f.feederVA == 0.0 && f.feederW == 0.0 && f.source == "estimasi"
      && f.factorS == lf && f.factorP == lf * pf
  {
    if Referenced(base, refs, id) {
      FactorIs(refs[id].va, f.totalVA);
      FactorIs(refs[id].w, f.totalVA);
    }
  }

  /** The load over the contract power, kept between 0.05 and 3. */
  ghost predicate IsFactor(x: real, load: real, total: real) {
    if load < total * 0.05 then x == 0.05 else if load > total * 3.0 then x == 3.0 else x * total == load
  }

  lemma FactorIs(load: real, total: real)
    requires load > 0.0 && total > 0.0
    ensures IsFactor(ClampFactor(Ratio(load, total)), load, total)
  {
    var q := Ratio(load, total);
    assert q * total == load;
    var x := ClampFactor(q);
    if q < 0.05 {
      Scaled(q, 0.05, total);
      assert x == 0.05;
    } else if q > 3.0 {
      Scaled(3.0, q, total);
      assert x == 3.0;
    } else {
      ScaledUp(0.05, q, total);
      ScaledUp(q, 3.0, total);
      assert x == q;
    }
  }

  lemma Scaled(a: real, b: real, c: real)
    requires a < b && c > 0.0
    ensures a * c < b * c
  {
  }

  lemma ScaledUp(a: real, b: real, c: real)
    requires a <= b && c > 0.0
    ensures a * c <= b * c
  {
  }

  function RowSum(rows: seq<FeederAlloc>, value: FeederAlloc -> real): real {
    if rows == [] then 0.0 else RowSum(rows[..|rows| - 1], value) + value(rows[|rows| - 1])
  }

  function RowCount(rows: seq<FeederAlloc>, source: string): nat {
    if rows == [] then 0
    else RowCount(rows[..|rows| - 1], source) + if rows[|rows| - 1].source == source then 1 else 0
  }

  lemma {:induction false} SumsOfRows(f: int -> real, value: FeederAlloc -> real, ids: seq<int>, rows: seq<FeederAlloc>)
    requires |rows| == |ids| && forall k :: 0 <= k < |ids| ==> value(rows[k]) == f(ids[k])
    ensures RowSum(rows, value) == RealSum(f, ids)
    decreases |ids|
  {
    if ids != [] { SumsOfRows(f, value, ids[..|ids| - 1], rows[..|ids| - 1]); }
  }

  lemma {:induction false} CountsOfRows(base: map<int, real>, refs: map<int, FeederRef>, source: string, ids: seq<int>,
                                        rows: seq<FeederAlloc>)
    requires |rows| == |ids| && forall k :: 0 <= k < |ids| ==> rows[k].source == SourceOf(base, refs, ids[k])
    ensures RowCount(rows, source) == CountSource(base, refs, source, ids)
    decreases |ids|
  {
    hide SourceOf;
    if ids != [] { CountsOfRows(base, refs, source, ids[..|ids| - 1], rows[..|ids| - 1]); }
  }

  /** A result, told in full: a row for each feeder with affected contract power and for no other, in ascending order of
      id; each total is the sum over the rows, and each source is counted once for each of its rows. */
  lemma {:induction false} AllocationMeans(byFeeder: map<int, real>, base: map<int, real>, refs: map<int, FeederRef>,
                                           lf: real, pf: real, ids: seq<int>, a: LoadAlloc)
    requires Lists(ids, Affected(byFeeder)) && IsAllocation(byFeeder, base, refs, lf, pf, ids, a)
    ensures forall id :: id in byFeeder && byFeeder[id] > 0.0 <==> exists f :: f in a.feeders && f.id == id
    ensures forall i, j :: 0 <= i < j < |a.feeders| ==> a.feeders[i].id < a.feeders[j].id
    ensures forall f :: f in a.feeders ==> RowFor(byFeeder, base, refs, lf, pf, f.id, f)
    ensures a.contractVA == RowSum(a.feeders, (f: FeederAlloc) => f.contractVA)
    ensures a.va == RowSum(a.feeders, (f: FeederAlloc) => f.va)
    ensures a.w == RowSum(a.feeders, (f: FeederAlloc) => f.w)
    ensures forall s :: RowCount(a.feeders, s) == if s in a.sources then a.sources[s] else 0
  {
    hide Times, FactorS, FactorP, Referenced, SourceOf;
    assert forall k :: 0 <= k < |ids| ==> RowFor(byFeeder, base, refs, lf, pf, ids[k], a.feeders[k]);
    SumsOfRows(Contract(byFeeder), (f: FeederAlloc) => f.contractVA, ids, a.feeders);
    SumsOfRows(ShareVA(byFeeder, base, refs, lf), (f: FeederAlloc) => f.va, ids, a.feeders);
    SumsOfRows(ShareW(byFeeder, base, refs, lf, pf), (f: FeederAlloc) => f.w, ids, a.feeders);
    forall s ensures RowCount(a.feeders, s) == if s in a.sources then a.sources[s] else 0 {
      CountsOfRows(base, refs, s, ids, a.feeders);
    }
    forall id ensures id in byFeeder && byFeeder[id] > 0.0 <==> exists f :: f in a.feeders && f.id == id {
      RowsOf(ids, a.feeders, id);
      assert id in Affected(byFeeder) <==> id in ids;
    }
  }

  lemma RowsOf(ids: seq<int>, rows: seq<FeederAlloc>, id: int)
    requires |rows| == |ids| && forall k :: 0 <= k < |ids| ==> rows[k].id == ids[k]
    ensures id in ids <==> exists f :: f in rows && f.id == id
  {
    if id in ids {
      var k :| 0 <= k < |ids| && ids[k] == id;
      assert rows[k] in rows;
    }
    if f :| f in rows && f.id == id {
      var k :| 0 <= k < |ids| && rows[k] == f;
      assert ids[k] in ids;
    }
  }

  lemma TimesBetween(c: real, x: real)
    requires c >= 0.0 && 0.05 <= x <= 3.0
    ensures 0.05 * c <= Times(c, x) <= 3.0 * c
  {
    assert c * (x - 0.05) >= 0.0;
    assert c * (3.0 - x) >= 0.0;
  }

  lemma DivideTimes(a: real, b: real)
    requires b > 0.0
    ensures Times(b, Ratio(a, b)) == a
  {
  }
}
