/** The log of affected objects: rows (event, object) merged per root event, put in a fixed order, and paged. */
module EventLog {
  import opened Listings
  import opened Orders

  /** A selected event: the root event it belongs to, its start, and its end unless it is still active. */
  datatype Event = Event(root: int, start: int, end: Option<int>)

  /** One affected object as read from one event. Codes are compared byte by byte. */
  datatype Raw = Raw(event: int, id: int, code: seq<int>)

  /** One affected object of one root event. */
  datatype Entry = Entry(event: int, id: int, code: seq<int>, start: int, end: Option<int>, active: bool, minutes: int)

  datatype Key = Key(event: int, id: int)

  /** Row `r` concerns the object of a root event that `k` names. */
  predicate Concerns(events: map<int, Event>, r: Raw, k: Key) {
    r.event in events && events[r.event].root == k.event && r.id == k.id
  }

  // ------------------------------------------------------------------ what a merged entry means

  /** An event that contributes to `k` by way of some row. */
  ghost predicate Contributes(events: map<int, Event>, rows: seq<Raw>, k: Key, e: Event) {
    exists r :: r in rows && Concerns(events, r, k) && events[r.event] == e
  }

  ghost predicate Present(events: map<int, Event>, rows: seq<Raw>, k: Key) {
    exists r :: r in rows && Concerns(events, r, k)
  }

  /** The entry starts with the earliest contributing event, is active when one of them is open, and records the
      latest end among those that ended; its code comes from one of the rows. */
  ghost predicate Summarises(events: map<int, Event>, rows: seq<Raw>, k: Key, x: Entry) {
    && x.event == k.event && x.id == k.id
    && (exists r :: r in rows && Concerns(events, r, k) && x.code == r.code)
    && (exists e :: Contributes(events, rows, k, e) && e.start == x.start)
    && (forall e :: Contributes(events, rows, k, e) ==> x.start <= e.start)
    && (x.active <==> exists e :: Contributes(events, rows, k, e) && e.end.None?)
    && (x.end.Some? ==> exists e :: Contributes(events, rows, k, e) && e.end == x.end)
    && (forall e :: Contributes(events, rows, k, e) && e.end.Some? ==> x.end.Some? && e.end.value <= x.end.value)
  }

  function Absorb(e: Event, x: Entry): Entry {
    x.(start := if e.start < x.start then e.start else x.start,
       active := x.active || e.end.None?,
       end := if e.end.Some? && (x.end.None? || e.end.value > x.end.value) then e.end else x.end)
  }

  lemma ContributesSnoc(events: map<int, Event>, rows: seq<Raw>, r: Raw, k: Key, e: Event)
    ensures Contributes(events, rows + [r], k, e)
       <==> Contributes(events, rows, k, e) || (Concerns(events, r, k) && events[r.event] == e)
  {
    assert forall q :: q in rows + [r] <==> q in rows || q == r;
  }

  lemma AbsorbElsewhere(events: map<int, Event>, rows: seq<Raw>, r: Raw, k: Key, x: Entry)
    requires Summarises(events, rows, k, x) && !Concerns(events, r, k)
    ensures Summarises(events, rows + [r], k, x)
  {
    forall e ensures Contributes(events, rows + [r], k, e) <==> Contributes(events, rows, k, e) {
      ContributesSnoc(events, rows, r, k, e);
    }
    var q :| q in rows && Concerns(events, q, k) && x.code == q.code;
    assert q in rows + [r];
  }

  lemma AbsorbHere(events: map<int, Event>, rows: seq<Raw>, r: Raw, k: Key, x: Entry)
    requires Summarises(events, rows, k, x) && Concerns(events, r, k)
    ensures Summarises(events, rows + [r], k, Absorb(events[r.event], x))
  {
    hide Contributes;
    var e0 := events[r.event];
    forall e ensures Contributes(events, rows + [r], k, e) <==> Contributes(events, rows, k, e) || e == e0 {
      ContributesSnoc(events, rows, r, k, e);
    }
    var q :| q in rows && Concerns(events, q, k) && x.code == q.code;
    assert q in rows + [r];
    assert Contributes(events, rows + [r], k, e0);
  }

  lemma AbsorbFirst(events: map<int, Event>, rows: seq<Raw>, r: Raw, k: Key)
    requires !Present(events, rows, k) && Concerns(events, r, k)
    ensures var e := events[r.event];
            Summarises(events, rows + [r], k, Absorb(e, Entry(k.event, r.id, r.code, e.start, None, false, 0)))
  {
    var e0 := events[r.event];
    forall e ensures Contributes(events, rows + [r], k, e) <==> e == e0 {
      ContributesSnoc(events, rows, r, k, e);
    }
    assert r in rows + [r];
  }

  /** Rows with the same id carry the same code. */
  ghost predicate SameCodes(rows: seq<Raw>) {
    forall q, r :: q in rows && r in rows && q.id == r.id ==> q.code == r.code
  }

  ghost predicate SameRows(a: seq<Raw>, b: seq<Raw>) {
    forall r :: r in a <==> r in b
  }

  /** An entry is determined by which rows there are, whatever their order. */
  lemma SummaryUnique(events: map<int, Event>, a: seq<Raw>, b: seq<Raw>, k: Key, x: Entry, y: Entry)
    requires SameRows(a, b) && SameCodes(a) && Summarises(events, a, k, x) && Summarises(events, b, k, y)
    ensures x.start == y.start && x.active == y.active && x.end == y.end && x.code == y.code
  {
    forall e ensures Contributes(events, a, k, e) <==> Contributes(events, b, k, e) {
    }
    hide Contributes;
    var q :| q in a && Concerns(events, q, k) && x.code == q.code;
    var r :| r in b && Concerns(events, r, k) && y.code == r.code;
  }

  // ------------------------------------------------------------------ the order of the log

  /** Still off first, then latest start, then event, code and id. */
  predicate Before(a: Entry, b: Entry) {
    if a.active != b.active then a.active
    else if a.start != b.start then a.start > b.start
    else if a.event != b.event then a.event > b.event
    else if a.code != b.code then LexLess(a.code, b.code)
    else a.id < b.id
  }

  lemma BeforeAsymmetric(a: Entry, b: Entry)
    requires Before(a, b)
    ensures !Before(b, a)
  {
    LexTrichotomy(a.code, b.code);
  }

  lemma BeforeTotal(a: Entry, b: Entry)
    requires a.event != b.event || a.id != b.id
    ensures Before(a, b) || Before(b, a)
  {
    LexTrichotomy(a.code, b.code);
  }

  lemma BeforeTransitive(a: Entry, b: Entry, c: Entry)
    requires Before(a, b) && Before(b, c)
    ensures Before(a, c)
  {
    LexTrichotomy(a.code, b.code);
    LexTrichotomy(b.code, c.code);
    LexTrichotomy(a.code, c.code);
    if LexLess(a.code, b.code) && LexLess(b.code, c.code) {
      LexTransitive(a.code, b.code, c.code);
    }
  }

  ghost predicate DistinctKeys(s: seq<Entry>) {
    forall i, j :: 0 <= i < j < |s| ==> s[i].event != s[j].event || s[i].id != s[j].id
  }

  function Insert(x: Entry, s: seq<Entry>): (r: seq<Entry>)
    ensures forall y :: y in r <==> y == x || y in s
  {
    if s == [] || Before(x, s[0]) then [x] + s
    else
      assert s == [s[0]] + s[1..];
      [s[0]] + Insert(x, s[1..])
  }

  lemma {:induction false} InsertSorts(x: Entry, s: seq<Entry>)
    requires Sorted(Before, s) && forall y :: y in s ==> y.event != x.event || y.id != x.id
    ensures Sorted(Before, Insert(x, s))
  {
    hide Before;
    var r := Insert(x, s);
    if s == [] {
    } else if Before(x, s[0]) {
      forall i, j | 0 <= i < j < |r| ensures Before(r[i], r[j]) {
        if i == 0 && j > 1 { BeforeTransitive(x, s[0], s[j - 1]); }
      }
    } else {
      assert s[0] in s;
      BeforeTotal(x, s[0]);
      assert forall y :: y in s[1..] ==> y in s;
      InsertSorts(x, s[1..]);
      forall j | 0 < j < |r| ensures Before(r[0], r[j]) {
        assert r[j] == Insert(x, s[1..])[j - 1] && r[j] in Insert(x, s[1..]);
        if r[j] != x {
          var m :| 0 <= m < |s[1..]| && s[1..][m] == r[j];
          assert Before(s[0], s[m + 1]);
        }
      }
    }
  }

  /** Sorting by insertion; with distinct keys there are no ties, so stability plays no part. */
  method SortEntries(list: seq<Entry>) returns (sorted: seq<Entry>)
    requires DistinctKeys(list)
    ensures Sorted(Before, sorted) && DistinctKeys(sorted) && forall x :: x in sorted <==> x in list
  {
    sorted := [];
    for i := 0 to |list|
      invariant Sorted(Before, sorted) && forall x :: x in sorted <==> x in list[..i]
    {
      forall y | y in sorted ensures y.event != list[i].event || y.id != list[i].id {
        var m :| 0 <= m < |list[..i]| && list[..i][m] == y;
      }
      InsertSorts(list[i], sorted);
      assert forall x :: x in list[..i + 1] <==> x in list[..i] || x == list[i];
      sorted := Insert(list[i], sorted);
    }
    assert list[..|list|] == list;
    SortedKeys(list, sorted);
  }

  // ------------------------------------------------------------------ the merge

  function Final(x: Entry, now: int): Entry {
    var end := if x.active then None else x.end;
    x.(end := end, minutes := end.GetOr(now) - x.start)
  }

  /** `x` is the finished entry of some object of some root event that a row concerns. */
  ghost predicate IsEntry(events: map<int, Event>, rows: seq<Raw>, now: int, x: Entry) {
    exists y :: Summarises(events, rows, Key(x.event, x.id), y) && x == Final(y, now)
  }

  /** The log of the given rows: one entry for every object of every root event concerned, in order. */
  ghost predicate IsLog(events: map<int, Event>, rows: seq<Raw>, now: int, out: seq<Entry>) {
    && (forall x :: x in out ==> IsEntry(events, rows, now, x))
    && (forall k :: Present(events, rows, k) ==> exists x :: x in out && x.event == k.event && x.id == k.id)
    && DistinctKeys(out)
    && Sorted(Before, out)
  }

  ghost predicate Merging(events: map<int, Event>, rows: seq<Raw>, m: map<Key, Entry>, order: seq<Key>) {
    && Distinct(order)
    && (forall k :: k in order <==> k in m)
    && (forall k :: k in m <==> Present(events, rows, k))
    && (forall k :: k in m ==> Summarises(events, rows, k, m[k]))
  }

  lemma MergingStep(events: map<int, Event>, rows: seq<Raw>, r: Raw, m: map<Key, Entry>, m': map<Key, Entry>,
                    order: seq<Key>, order': seq<Key>)
    requires Merging(events, rows, m, order)
    requires if r.event !in events then m' == m && order' == order
      else
        var e := events[r.event];
        var k := Key(e.root, r.id);
        var x := if k in m then m[k] else Entry(e.root, r.id, r.code, e.start, None, false, 0);
        m' == m[k := Absorb(e, x)] && order' == if k in m then order else order + [k]
    ensures Merging(events, rows + [r], m', order')
  {
    forall k ensures Present(events, rows + [r], k) <==> Present(events, rows, k) || Concerns(events, r, k) {
      assert forall q :: q in rows + [r] <==> q in rows || q == r;
    }
    forall k | k in m' ensures Summarises(events, rows + [r], k, m'[k]) {
      if !Concerns(events, r, k) {
        AbsorbElsewhere(events, rows, r, k, m[k]);
      } else if k in m {
        AbsorbHere(events, rows, r, k, m[k]);
      } else {
        AbsorbFirst(events, rows, r, k);
      }
    }
  }

  /** A finished entry: it starts with the earliest contributing event. If one of them is open, the entry is active, has
      no end and lasts until now; else it ends with the latest of them and lasts until then. */
  ghost predicate Tells(events: map<int, Event>, rows: seq<Raw>, now: int, x: Entry) {
    var k := Key(x.event, x.id);
    && (exists r :: r in rows && Concerns(events, r, k) && x.code == r.code)
    && (exists e :: Contributes(events, rows, k, e) && e.start == x.start)
    && (forall e :: Contributes(events, rows, k, e) ==> x.start <= e.start)
    && (x.active <==> exists e :: Contributes(events, rows, k, e) && e.end == None)
    && if x.active then x.end == None && x.minutes == now - x.start
       else
         && x.end.Some? && (exists e :: Contributes(events, rows, k, e) && e.end == x.end)
         && (forall e :: Contributes(events, rows, k, e) && e.end.Some? ==> e.end.value <= x.end.value)
         && x.minutes == x.end.value - x.start
  }

  lemma {:induction false} EntryTells(events: map<int, Event>, rows: seq<Raw>, now: int, x: Entry)
    requires IsEntry(events, rows, now, x)
    ensures Tells(events, rows, now, x)
  {
    var k := Key(x.event, x.id);
    var y :| Summarises(events, rows, k, y) && x == Final(y, now);
    hide Contributes, Concerns;
    var e :| Contributes(events, rows, k, e) && e.start == y.start;
    assert !y.active ==> e.end.Some?;
  }

  /** Active entries come first; among entries alike so far the later start, then the greater event, then the smaller
      code, then the smaller id. */
  ghost predicate InLogOrder(out: seq<Entry>) {
    forall i, j :: 0 <= i < j < |out| ==> ComesFirst(out[i], out[j])
  }

  ghost predicate ComesFirst(a: Entry, b: Entry) {
    && (b.active ==> a.active)
    && (a.active == b.active ==> a.start >= b.start)
    && (a.active == b.active && a.start == b.start ==> a.event >= b.event)
    && (a.active == b.active && a.start == b.start && a.event == b.event ==>
          a.code == b.code || LexLess(a.code, b.code))
    && (a.active == b.active && a.start == b.start && a.event == b.event && a.code == b.code ==> a.id < b.id)
  }

  lemma {:induction false} LogIsOrdered(out: seq<Entry>)
    requires Sorted(Before, out)
    ensures InLogOrder(out)
  {
    forall i, j | 0 <= i < j < |out| ensures ComesFirst(out[i], out[j]) {
      assert Before(out[i], out[j]);
    }
  }

  /** Merges the rows per root event and object. Records live in a map, the order of first appearance in a list. */
  method Merge(events: map<int, Event>, rows: seq<Raw>, now: int) returns (out: seq<Entry>)
    ensures IsLog(events, rows, now, out)
    ensures forall x :: x in out ==> Tells(events, rows, now, x)
    ensures InLogOrder(out)
  {
    out := MergeRows(events, rows, now);
    forall x | x in out ensures Tells(events, rows, now, x) { EntryTells(events, rows, now, x); }
    LogIsOrdered(out);
  }

  method MergeRows(events: map<int, Event>, rows: seq<Raw>, now: int) returns (out: seq<Entry>)
    ensures IsLog(events, rows, now, out)
  {
    var m: map<Key, Entry> := map[];
    var order: seq<Key> := [];
    for i := 0 to |rows|
      invariant Merging(events, rows[..i], m, order)
    {
      ghost var m0, order0 := m, order;
      var r := rows[i];
      if r.event in events {
        var e := events[r.event];
        var k := Key(e.root, r.id);
        if k !in m {
          m := m[k := Entry(e.root, r.id, r.code, e.start, None, false, 0)];
          order := order + [k];
        }
        m := m[k := Absorb(e, m[k])];
      }
      MergingStep(events, rows[..i], r, m0, m, order0, order);
      assert rows[..i + 1] == rows[..i] + [r];
    }
    assert rows[..|rows|] == rows;
    var list := [];
    for i := 0 to |order|
      invariant |list| == i
      invariant forall j :: 0 <= j < i ==> order[j] in m && list[j] == Final(m[order[j]], now)
    {
      assert order[i] in order;
      list := list + [Final(m[order[i]], now)];
    }
    Listed(events, rows, now, m, order, list);
    out := SortEntries(list);
    assert forall k :: Present(events, rows, k) ==> k in order;
  }

  lemma Listed(events: map<int, Event>, rows: seq<Raw>, now: int, m: map<Key, Entry>, order: seq<Key>, list: seq<Entry>)
    requires Merging(events, rows, m, order) && |list| == |order|
    requires forall j :: 0 <= j < |order| ==> order[j] in m && list[j] == Final(m[order[j]], now)
    ensures DistinctKeys(list)
    ensures forall x :: x in list ==> IsEntry(events, rows, now, x)
    ensures forall k :: k in order ==> exists x :: x in list && x.event == k.event && x.id == k.id
  {
    forall j | 0 <= j < |order|
      ensures list[j].event == order[j].event && list[j].id == order[j].id && IsEntry(events, rows, now, list[j])
    {
      assert Summarises(events, rows, order[j], m[order[j]]);
      assert order[j] == Key(list[j].event, list[j].id);
    }
    forall k | k in order ensures exists x :: x in list && x.event == k.event && x.id == k.id {
      var j :| 0 <= j < |order| && order[j] == k;
      assert list[j] in list;
    }
  }

  /** In strictly ascending order no entry occurs twice, so distinct keys stay distinct. */
  lemma SortedKeys(list: seq<Entry>, sorted: seq<Entry>)
    requires DistinctKeys(list) && Sorted(Before, sorted) && forall x :: x in sorted ==> x in list
    ensures DistinctKeys(sorted)
  {
    forall i, j | 0 <= i < j < |sorted|
      ensures sorted[i].event != sorted[j].event || sorted[i].id != sorted[j].id
    {
      assert sorted[i] in sorted && sorted[j] in sorted;
      var p :| 0 <= p < |list| && list[p] == sorted[i];
      var q :| 0 <= q < |list| && list[q] == sorted[j];
      assert Before(sorted[i], sorted[j]);
      BeforeAsymmetric(sorted[i], sorted[j]);
    }
  }

  // ------------------------------------------------------------------ what the log promises

  lemma EntryPresent(events: map<int, Event>, rows: seq<Raw>, now: int, x: Entry)
    requires IsEntry(events, rows, now, x)
    ensures Present(events, rows, Key(x.event, x.id))
  {
  }

  lemma EntryUnique(events: map<int, Event>, a: seq<Raw>, b: seq<Raw>, now: int, x: Entry, y: Entry)
    requires SameRows(a, b) && SameCodes(a) && x.event == y.event && x.id == y.id
    requires IsEntry(events, a, now, x) && IsEntry(events, b, now, y)
    ensures x == y
  {
    hide Summarises;
    var k := Key(x.event, x.id);
    var x0 :| Summarises(events, a, k, x0) && x == Final(x0, now);
    var y0 :| Summarises(events, b, k, y0) && y == Final(y0, now);
    SummaryUnique(events, a, b, k, x0, y0);
    SummaryKeepsRest(events, a, k, x0);
    SummaryKeepsRest(events, b, k, y0);
  }

  lemma SummaryKeepsRest(events: map<int, Event>, rows: seq<Raw>, k: Key, x: Entry)
    requires Summarises(events, rows, k, x)
    ensures x.event == k.event && x.id == k.id
  {
  }

  lemma LogContains(events: map<int, Event>, a: seq<Raw>, b: seq<Raw>, now: int, p: seq<Entry>, q: seq<Entry>, x: Entry)
    requires SameRows(a, b) && SameCodes(a) && IsLog(events, a, now, p) && IsLog(events, b, now, q) && x in p
    ensures x in q
  {
    var k := Key(x.event, x.id);
    EntryPresent(events, a, now, x);
    assert Present(events, b, k);
    var y :| y in q && y.event == k.event && y.id == k.id;
    EntryUnique(events, a, b, now, x, y);
  }

  /** The log does not depend on the order in which the rows were read, nor on rows read twice. */
  lemma LogIndependentOfRowOrder(events: map<int, Event>, a: seq<Raw>, b: seq<Raw>, now: int,
                                 p: seq<Entry>, q: seq<Entry>)
    requires SameRows(a, b) && SameCodes(a) && IsLog(events, a, now, p) && IsLog(events, b, now, q)
    ensures p == q
  {
    assert SameCodes(b);
    forall x ensures x in p <==> x in q {
      if x in p { LogContains(events, a, b, now, p, q, x); }
      if x in q { LogContains(events, b, a, now, q, p, x); }
    }
    forall x, y | Before(x, y) ensures !Before(y, x) {
      BeforeAsymmetric(x, y);
    }
    SortedUnique(Before, p, q);
  }

  // ------------------------------------------------------------------ pages

  function Min(a: int, b: int): int {
    if a < b then a else b
  }

  function Max(a: int, b: int): int {
    if a > b then a else b
  }

  function PageSize(requested: int): (size: int)
    ensures 5 <= size <= 100
  {
    if requested < 5 || requested > 100 then 10 else requested
  }

  function Pages(total: nat, size: int): (pages: int)
    requires size > 0
    ensures pages >= 1 && (pages - 1) * size <= total <= pages * size
    ensures total > 0 ==> (pages - 1) * size < total
  {
    Max(1, (total + size - 1) / size)
  }

  /** Items, page number, number of pages and page size for the requested size and page. */
  function InfoPage<T>(list: seq<T>, sizeReq: int, pageReq: int): (r: (seq<T>, int, int, int)) {
    var size := PageSize(sizeReq);
    var total := |list|;
    var pages := Pages(total, size);
    var page := Min(Max(1, pageReq), pages);
    PageBounds(total, size, page);
    (list[Min((page - 1) * size, total)..Min(page * size, total)], page, pages, size)
  }

  lemma PageBounds(total: nat, size: int, page: int)
    requires size > 0 && page >= 1
    ensures 0 <= Min((page - 1) * size, total) <= Min(page * size, total) <= total
  {
    assert page * size == (page - 1) * size + size;
  }

  function FirstPages<T>(list: seq<T>, sizeReq: int, n: nat): seq<T> {
    if n == 0 then [] else FirstPages(list, sizeReq, n - 1) + InfoPage(list, sizeReq, n).0
  }

  lemma {:induction false} FirstPagesAre<T>(list: seq<T>, sizeReq: int, n: nat)
    requires n <= InfoPage(list, sizeReq, 1).2
    ensures FirstPages(list, sizeReq, n) == list[..Min(n * PageSize(sizeReq), |list|)]
  {
    var size := PageSize(sizeReq);
    if n > 0 {
      FirstPagesAre(list, sizeReq, n - 1);
      PageBounds(|list|, size, n);
      var lo, hi := Min((n - 1) * size, |list|), Min(n * size, |list|);
      assert InfoPage(list, sizeReq, n).0 == list[lo..hi];
      assert list[..lo] + list[lo..hi] == list[..hi];
    }
  }

  /** Read one after the other, the pages are the whole list: nothing is missing and nothing comes twice. */
  lemma PagesCoverList<T>(list: seq<T>, sizeReq: int)
    ensures FirstPages(list, sizeReq, InfoPage(list, sizeReq, 1).2) == list
  {
    var pages := InfoPage(list, sizeReq, 1).2;
    FirstPagesAre(list, sizeReq, pages);
    assert list[..|list|] == list;
  }

  /** Every page but the last is full, the last is not empty unless the list is, and a page number out of range
      shows the nearest page. */
  lemma PageShape<T>(list: seq<T>, sizeReq: int, pageReq: int)
    ensures var (items, page, pages, size) := InfoPage(list, sizeReq, pageReq);
      && 1 <= page <= pages
      && (1 <= pageReq <= pages ==> page == pageReq)
      && (page < pages ==> |items| == size)
      && (list != [] ==> 1 <= |items| <= size)
      && InfoPage(list, sizeReq, page) == InfoPage(list, sizeReq, pageReq)
      && (pageReq < 1 ==> page == 1) && (pageReq > pages ==> page == pages)
      && (if 5 <= sizeReq <= 100 then size == sizeReq else size == 10)
  {
    var (items, page, pages, size) := InfoPage(list, sizeReq, pageReq);
    PageBounds(|list|, size, page);
    assert page * size == (page - 1) * size + size;
    if page < pages {
      assert page * size <= (pages - 1) * size by { SmallerTimes(page, pages - 1, size); }
    }
  }

  lemma SmallerTimes(a: int, b: int, size: int)
    requires a <= b && size > 0
    ensures a * size <= b * size
  {
  }
}
