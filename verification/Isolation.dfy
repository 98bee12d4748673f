/** Grouping the nodes that stay off after a partial restoration by the open device that isolates them. */
module Isolation {
  import opened Listings
  import opened Network

  /** `m` lies strictly upstream of `n` when every switch is in its normal position. */
  ghost predicate Upstream(net: Network, n: int, m: int)
    requires net.Valid() && n in net.nodes
    decreases net.nodes[n].dist
  {
    var up := net.nodes[n].up;
    up != 0 && (up == m || Upstream(net, up, m))
  }

  ghost predicate CutOffAbove(net: Network, open: set<int>, id: int)
    requires net.Valid() && id in net.nodes
  {
    exists d :: d in open && Upstream(net, id, d)
  }

  /** One upstream search: it stops at a node searched earlier, whose answer it takes over,
      or at the first open device other than `id` itself; 0 when it runs out of network. */
  function Walk(net: Network, open: set<int>, cache: map<int, int>, id: int, n: int): (iso: int)
    requires net.Valid() && n in net.nodes
    decreases net.nodes[n].dist
  {
    if n in cache then cache[n]
    else if n != id && n in open then n
    else if net.nodes[n].up == 0 then 0
    else Walk(net, open, cache, id, net.nodes[n].up)
  }

  /** The answers after searching from the listed nodes in order. */
  function Searched(net: Network, open: set<int>, off: seq<int>): (cache: map<int, int>)
    requires net.Valid() && forall id :: id in off ==> id in net.nodes
    ensures forall id :: id in cache <==> id in off
  {
    if off == [] then map[]
    else
      var id := off[|off| - 1];
      var before := Searched(net, open, off[..|off| - 1]);
      before[id := Walk(net, open, before, id, id)]
  }

  /** The nodes of one isolator, in list order. */
  function GroupOf(cache: map<int, int>, off: seq<int>, iso: int): (group: seq<int>)
    requires forall id :: id in off ==> id in cache
    ensures forall id :: id in group <==> id in off && cache[id] == iso
  {
    if off == [] then []
    else
      var last := off[|off| - 1];
      GroupOf(cache, off[..|off| - 1], iso) + if cache[last] == iso then [last] else []
  }

  function StillOff(on: set<int>, ids: seq<int>): (off: seq<int>)
    ensures forall id :: id in off <==> id in ids && id !in on
    ensures |off| <= |ids|
  {
    if ids == [] then []
    else
      var last := ids[|ids| - 1];
      StillOff(on, ids[..|ids| - 1]) + if last !in on then [last] else []
  }

  lemma {:induction false} StillOffDistinct(on: set<int>, ids: seq<int>)
    requires Distinct(ids)
    ensures Distinct(StillOff(on, ids))
  {
    if ids != [] {
      StillOffDistinct(on, ids[..|ids| - 1]);
    }
  }

  /** The ids of a list that are in the graph, in order and with their repetitions. */
  function InGraph(net: Network, ids: seq<int>): (inside: seq<int>)
    ensures forall id :: id in inside <==> id in ids && id in net.nodes
  {
    if ids == [] then []
    else
      var last := ids[|ids| - 1];
      InGraph(net, ids[..|ids| - 1]) + if last in net.nodes then [last] else []
  }

  lemma {:induction false} AllInGraph(net: Network, ids: seq<int>)
    requires forall id :: id in ids ==> id in net.nodes
    ensures InGraph(net, ids) == ids
  {
    if ids != [] {
      var n := |ids| - 1;
      assert ids[n] in ids;
      AllInGraph(net, ids[..n]);
      assert ids == ids[..n] + [ids[n]];
    }
  }

  lemma InGraphSnoc(net: Network, ids: seq<int>, id: int)
    ensures InGraph(net, ids + [id]) == if id in net.nodes then InGraph(net, ids) + [id] else InGraph(net, ids)
  {
    assert (ids + [id])[..|ids|] == ids;
  }

  lemma {:induction false} GroupDistinct(cache: map<int, int>, off: seq<int>, iso: int)
    requires Distinct(off) && forall id :: id in off ==> id in cache
    ensures Distinct(GroupOf(cache, off, iso))
  {
    if off != [] {
      GroupDistinct(cache, off[..|off| - 1], iso);
    }
  }

  lemma {:induction false} GroupOfSame(a: map<int, int>, b: map<int, int>, off: seq<int>, iso: int)
    requires forall id :: id in off ==> id in a && id in b && a[id] == b[id]
    ensures GroupOf(a, off, iso) == GroupOf(b, off, iso)
  {
    if off != [] {
      GroupOfSame(a, b, off[..|off| - 1], iso);
    }
  }

  /** The groups built so far are those of the nodes searched so far; an isolator without nodes has no group. */
  ghost predicate Grouped(cache: map<int, int>, off: seq<int>, groups: map<int, seq<int>>)
    requires forall id :: id in off ==> id in cache
  {
    && (forall iso :: iso in groups ==> groups[iso] == GroupOf(cache, off, iso) && groups[iso] != [])
    && (forall id :: id in off ==> cache[id] in groups)
  }

  lemma SearchedSnoc(net: Network, open: set<int>, off: seq<int>, id: int)
    requires net.Valid() && id in net.nodes && forall m :: m in off ==> m in net.nodes
    ensures var before := Searched(net, open, off);
            Searched(net, open, off + [id]) == before[id := Walk(net, open, before, id, id)]
  {
    assert (off + [id])[..|off|] == off;
  }

  lemma GroupSnoc(cache: map<int, int>, off: seq<int>, id: int, iso: int, k: int)
    requires (forall x :: x in off ==> x in cache) && (id in off ==> cache[id] == iso)
    ensures GroupOf(cache[id := iso], off + [id], k) == GroupOf(cache, off, k) + if k == iso then [id] else []
  {
    assert (off + [id])[..|off|] == off;
    GroupOfSame(cache[id := iso], cache, off, k);
  }

  lemma NoGroup(cache: map<int, int>, off: seq<int>, iso: int)
    requires forall x :: x in off ==> x in cache && cache[x] != iso
    ensures GroupOf(cache, off, iso) == []
  {
  }

  lemma GroupedStep(cache: map<int, int>, off: seq<int>, groups: map<int, seq<int>>, id: int, iso: int)
    requires forall x :: x in off ==> x in cache
    requires Grouped(cache, off, groups) && (id in off ==> cache[id] == iso)
    ensures Grouped(cache[id := iso], off + [id], groups[iso := (if iso in groups then groups[iso] else []) + [id]])
  {
    var cache' := cache[id := iso];
    var groups' := groups[iso := (if iso in groups then groups[iso] else []) + [id]];
    if iso !in groups {
      NoGroup(cache, off, iso);
    }
    forall k | k in groups' ensures groups'[k] == GroupOf(cache', off + [id], k) && groups'[k] != [] {
      GroupSnoc(cache, off, id, iso, k);
    }
  }

  /** The upstream search as the loop it is. */
  method FindIsolator(net: Network, open: set<int>, cache: map<int, int>, id: int) returns (iso: int)
    requires net.Valid() && id in net.nodes
    ensures iso == Walk(net, open, cache, id, id)
  {
    var n := id;
    while n !in cache && !(n != id && n in open) && net.nodes[n].up != 0
      invariant n in net.nodes
      invariant Walk(net, open, cache, id, n) == Walk(net, open, cache, id, id)
      decreases net.nodes[n].dist
    {
      n := net.nodes[n].up;
    }
    iso := if n in cache then cache[n] else if n != id && n in open then n else 0;
  }

  ghost predicate Filtered(net: Network, on: set<int>, ids: seq<int>, i: nat, off: seq<int>)
    requires i <= |ids|
  {
    off == StillOff(on, InGraph(net, ids[..i]))
  }

  lemma NothingFiltered(net: Network, on: set<int>, ids: seq<int>)
    ensures Filtered(net, on, ids, 0, [])
  {
  }

  lemma FilteredNext(net: Network, on: set<int>, ids: seq<int>, i: nat, off: seq<int>)
    requires i < |ids| && Filtered(net, on, ids, i, off)
    ensures Filtered(net, on, ids, i + 1, if ids[i] in net.nodes && ids[i] !in on then off + [ids[i]] else off)
  {
    hide StillOff, InGraph;
    assert ids[..i + 1] == ids[..i] + [ids[i]];
    InGraphSnoc(net, ids[..i], ids[i]);
    StillOffSnoc(on, InGraph(net, ids[..i]), ids[i]);
  }

  method FilterOff(net: Network, on: set<int>, ids: seq<int>) returns (off: seq<int>)
    ensures off == StillOff(on, InGraph(net, ids))
  {
    off := [];
    NothingFiltered(net, on, ids);
    hide StillOff, InGraph;
    assert ids[..|ids|] == ids;
    for i := 0 to |ids|
      invariant Filtered(net, on, ids, i, off)
    {
      FilteredNext(net, on, ids, i, off);
      hide Filtered;
      if ids[i] in net.nodes && ids[i] !in on {
        off := off + [ids[i]];
      }
    }
  }

  lemma StillOffSnoc(on: set<int>, ids: seq<int>, id: int)
    ensures StillOff(on, ids + [id]) == if id !in on then StillOff(on, ids) + [id] else StillOff(on, ids)
  {
    assert (ids + [id])[..|ids|] == ids;
  }

  /** Cache and groups after searching from the first `i` nodes. */
  ghost predicate SearchedSoFar(net: Network, open: set<int>, off: seq<int>, i: nat, cache: map<int, int>,
                                groups: map<int, seq<int>>)
    requires net.Valid() && i <= |off| && forall id :: id in off ==> id in net.nodes
  {
    cache == Searched(net, open, off[..i]) && Grouped(cache, off[..i], groups)
  }

  lemma NothingSearched(net: Network, open: set<int>, off: seq<int>)
    requires net.Valid() && forall id :: id in off ==> id in net.nodes
    ensures SearchedSoFar(net, open, off, 0, map[], map[])
  {
    assert off[..0] == [];
  }

  lemma SearchedNext(net: Network, open: set<int>, off: seq<int>, i: nat, cache: map<int, int>,
                     groups: map<int, seq<int>>)
    requires net.Valid() && i < |off| && forall id :: id in off ==> id in net.nodes
    requires SearchedSoFar(net, open, off, i, cache, groups)
    ensures var iso := Walk(net, open, cache, off[i], off[i]);
      SearchedSoFar(net, open, off, i + 1, cache[off[i] := iso],
                    groups[iso := (if iso in groups then groups[iso] else []) + [off[i]]])
  {
    SearchedAgain(net, open, cache, off[i]);
    hide Searched, GroupOf, Grouped, Walk;
    assert off[..i + 1] == off[..i] + [off[i]];
    SearchedSnoc(net, open, off[..i], off[i]);
    GroupedStep(cache, off[..i], groups, off[i], Walk(net, open, cache, off[i], off[i]));
  }

  /** Searches from each node in turn with the shared cache; a node listed again takes over its own answer. */
  method GroupByIsolator(net: Network, open: set<int>, off: seq<int>) returns (groups: map<int, seq<int>>)
    requires net.Valid() && forall id :: id in off ==> id in net.nodes
    ensures Grouped(Searched(net, open, off), off, groups)
  {
    groups := map[];
    var cache: map<int, int> := map[];
    NothingSearched(net, open, off);
    assert off[..|off|] == off;
    hide Searched, GroupOf, Grouped, Walk;
    for i := 0 to |off|
      invariant SearchedSoFar(net, open, off, i, cache, groups)
    {
      var id := off[i];
      var iso := FindIsolator(net, open, cache, id);
      SearchedNext(net, open, off, i, cache, groups);
      hide SearchedSoFar;
      cache := cache[id := iso];
      groups := groups[iso := (if iso in groups then groups[iso] else []) + [id]];
    }
  }

  lemma SearchedAgain(net: Network, open: set<int>, cache: map<int, int>, id: int)
    requires net.Valid() && id in net.nodes
    ensures id in cache ==> Walk(net, open, cache, id, id) == cache[id]
  {
  }

  /** The grouping as the original computes it: filter, then search. */
  method StillOffByIsolator(net: Network, open: set<int>, on: set<int>, ids: seq<int>)
    returns (groups: map<int, seq<int>>)
    requires net.Valid()
    ensures var off := StillOff(on, InGraph(net, ids)); Grouped(Searched(net, open, off), off, groups)
  {
    hide Searched, GroupOf, Grouped;
    var off := FilterOff(net, on, ids);
    groups := GroupByIsolator(net, open, off);
  }

  // ------------------------------------------------------------------ what the answers mean

  lemma {:induction false} WalkEndsUpstream(net: Network, open: set<int>, off: seq<int>, id: int, n: int)
    requires net.Valid() && n in net.nodes && forall m :: m in off ==> m in net.nodes
    requires id in net.nodes && (n == id || Upstream(net, id, n))
    ensures var iso := Walk(net, open, Searched(net, open, off), id, n);
            iso != 0 ==> iso in open && Upstream(net, id, iso)
    decreases |off|, net.nodes[n].dist
  {
    var cache := Searched(net, open, off);
    if n in cache {
      var k := LastSearchOf(net, open, off, n);
      WalkEndsUpstream(net, open, off[..k], n, n);
      if cache[n] != 0 && n != id {
        UpstreamTransitive(net, id, n, cache[n]);
      }
    } else if n != id && n in open {
    } else if net.nodes[n].up != 0 {
      if n != id { UpstreamStep(net, id, n); }
      WalkEndsUpstream(net, open, off, id, net.nodes[n].up);
    }
  }

  lemma {:induction false} LastSearchOf(net: Network, open: set<int>, off: seq<int>, n: int) returns (k: nat)
    requires net.Valid() && n in off && forall m :: m in off ==> m in net.nodes
    ensures k < |off| && off[k] == n
    ensures Searched(net, open, off)[n] == Walk(net, open, Searched(net, open, off[..k]), n, n)
  {
    k := |off| - 1;
    if off[k] != n {
      assert n in off[..k];
      var k0 := k;
      k := LastSearchOf(net, open, off[..k0], n);
      assert off[..k0][..k] == off[..k];
    }
  }

  lemma {:induction false} UpstreamTransitive(net: Network, a: int, b: int, c: int)
    requires net.Valid() && a in net.nodes && b in net.nodes && Upstream(net, a, b) && Upstream(net, b, c)
    ensures Upstream(net, a, c)
    decreases net.nodes[a].dist
  {
    var up := net.nodes[a].up;
    if up != b { UpstreamTransitive(net, up, b, c); }
  }

  lemma UpstreamStep(net: Network, a: int, b: int)
    requires net.Valid() && a in net.nodes && b in net.nodes && Upstream(net, a, b) && net.nodes[b].up != 0
    ensures Upstream(net, a, net.nodes[b].up)
  {
    UpstreamTransitive(net, a, b, net.nodes[b].up);
  }

  /** An isolator that is found is an open device strictly upstream of the node it isolates. */
  lemma IsolatorIsOpenUpstream(net: Network, open: set<int>, off: seq<int>, id: int)
    requires net.Valid() && id in off && forall m :: m in off ==> m in net.nodes
    ensures var iso := Searched(net, open, off)[id]; iso != 0 ==> iso in open && Upstream(net, id, iso)
  {
    var k := LastSearchOf(net, open, off, id);
    WalkEndsUpstream(net, open, off[..k], id, id);
  }

  lemma {:induction false} WalkFinds(net: Network, open: set<int>, cache: map<int, int>, id: int, n: int, d: int)
    requires net.Valid() && n in net.nodes
    requires d in open && d != id && (d == n || Upstream(net, n, d))
    requires forall m :: m in cache ==> cache[m] != 0
    ensures Walk(net, open, cache, id, n) != 0
    decreases net.nodes[n].dist
  {
    if n !in cache && !(n != id && n in open) {
      WalkFinds(net, open, cache, id, net.nodes[n].up, d);
    }
  }

  lemma {:induction false} UpstreamCloser(net: Network, n: int, m: int)
    requires net.Valid() && n in net.nodes && Upstream(net, n, m)
    ensures m in net.nodes && m != 0 && net.nodes[m].dist < net.nodes[n].dist
    decreases net.nodes[n].dist
  {
    if net.nodes[n].up != m { UpstreamCloser(net, net.nodes[n].up, m); }
  }

  lemma {:induction false} AllFound(net: Network, open: set<int>, off: seq<int>)
    requires net.Valid() && forall id :: id in off ==> id in net.nodes && CutOffAbove(net, open, id)
    ensures forall id :: id in off ==> Searched(net, open, off)[id] != 0
  {
    if off != [] {
      var n := |off| - 1;
      AllFound(net, open, off[..n]);
      assert off[n] in off;
      var d :| d in open && Upstream(net, off[n], d);
      UpstreamCloser(net, off[n], d);
      WalkFinds(net, open, Searched(net, open, off[..n]), off[n], off[n], d);
    }
  }

  /** Every listed node gets an isolator exactly when every one of them has an open device strictly upstream.
      A cut line upstream does not count: it never isolates anything here. */
  lemma AllIsolatedIff(net: Network, open: set<int>, off: seq<int>)
    requires net.Valid() && forall id :: id in off ==> id in net.nodes
    ensures (forall id :: id in off ==> Searched(net, open, off)[id] != 0)
       <==> (forall id :: id in off ==> CutOffAbove(net, open, id))
  {
    forall id | id in off && Searched(net, open, off)[id] != 0 ensures CutOffAbove(net, open, id) {
      IsolatorIsOpenUpstream(net, open, off, id);
    }
    if forall id :: id in off ==> CutOffAbove(net, open, id) {
      AllFound(net, open, off);
    }
  }

  // ------------------------------------------------------------------ nearest or not

  /** The open device nearest upstream, which the original's comment promises. */
  function Nearest(net: Network, open: set<int>, id: int): int
    requires net.Valid() && id in net.nodes
  {
    Walk(net, open, map[], id, id)
  }

  /** The search from `id` stops at a node that was searched earlier and is itself an open device:
      the one branch in which the answer taken over skips that device. */
  ghost predicate SkipsAnOpenDevice(net: Network, open: set<int>, earlier: seq<int>, id: int, n: int)
    requires net.Valid() && n in net.nodes
    decreases net.nodes[n].dist
  {
    if n in earlier || (n != id && n in open) then n in earlier && n in open && n != id
    else net.nodes[n].up != 0 && SkipsAnOpenDevice(net, open, earlier, id, net.nodes[n].up)
  }

  lemma {:induction false} WalkIsNearest(net: Network, open: set<int>, earlier: seq<int>, id: int, n: int)
    requires net.Valid() && n in net.nodes && id !in earlier && forall m :: m in earlier ==> m in net.nodes
    requires id in net.nodes && (n == id || Upstream(net, id, n))
    requires forall m :: m in earlier ==> Searched(net, open, earlier)[m] == Nearest(net, open, m)
    ensures var iso := Walk(net, open, Searched(net, open, earlier), id, n);
            iso == Walk(net, open, map[], id, n) <==> !SkipsAnOpenDevice(net, open, earlier, id, n)
    decreases net.nodes[n].dist
  {
    var cache := Searched(net, open, earlier);
    if n in earlier {
      NearestFrom(net, open, id, n);
    } else if n != id && n in open {
    } else if net.nodes[n].up != 0 {
      if n != id { UpstreamStep(net, id, n); }
      WalkIsNearest(net, open, earlier, id, net.nodes[n].up);
    }
  }

  /** Searching on from `n` on behalf of `id` or of `n` differs only when `n` is open. */
  lemma {:induction false} NearestFrom(net: Network, open: set<int>, id: int, n: int)
    requires net.Valid() && id in net.nodes && n in net.nodes && Upstream(net, id, n)
    ensures (Walk(net, open, map[], n, n) == Walk(net, open, map[], id, n)) <==> n !in open
  {
    UpstreamCloser(net, id, n);
    var up := net.nodes[n].up;
    if up != 0 {
      SameAbove(net, open, id, n, up);
      if n in open && Walk(net, open, map[], n, up) != 0 {
        WalkEndsUpstream(net, open, [], n, up);
        UpstreamCloser(net, n, Walk(net, open, map[], n, up));
      }
    }
  }

  lemma {:induction false} SameAbove(net: Network, open: set<int>, id: int, n: int, m: int)
    requires net.Valid() && m in net.nodes && id in net.nodes && n in net.nodes
    requires net.nodes[m].dist < net.nodes[n].dist && net.nodes[m].dist < net.nodes[id].dist
    ensures Walk(net, open, map[], id, m) == Walk(net, open, map[], n, m)
    decreases net.nodes[m].dist
  {
    if m !in open && net.nodes[m].up != 0 {
      SameAbove(net, open, id, n, net.nodes[m].up);
    }
  }

  ghost predicate AllNearest(net: Network, open: set<int>, off: seq<int>)
    requires net.Valid() && forall id :: id in off ==> id in net.nodes
  {
    forall id :: id in off ==> Searched(net, open, off)[id] == Nearest(net, open, id)
  }

  ghost predicate NoneSkips(net: Network, open: set<int>, off: seq<int>)
    requires net.Valid() && forall id :: id in off ==> id in net.nodes
  {
    forall j :: 0 <= j < |off| ==> !SkipsAnOpenDevice(net, open, off[..j], off[j], off[j])
  }

  lemma NoneSkipsSnoc(net: Network, open: set<int>, off: seq<int>, id: int)
    requires net.Valid() && id in net.nodes && forall m :: m in off ==> m in net.nodes
    ensures NoneSkips(net, open, off + [id])
       <==> NoneSkips(net, open, off) && !SkipsAnOpenDevice(net, open, off, id, id)
  {
    var all := off + [id];
    assert all[..|off|] == off;
    assert forall j :: 0 <= j < |off| ==> all[..j] == off[..j];
    if NoneSkips(net, open, off) && !SkipsAnOpenDevice(net, open, off, id, id) {
      forall j | 0 <= j < |all| ensures !SkipsAnOpenDevice(net, open, all[..j], all[j], all[j]) {
      }
    }
    if NoneSkips(net, open, all) {
      assert !SkipsAnOpenDevice(net, open, all[..|off|], all[|off|], all[|off|]);
      forall j | 0 <= j < |off| ensures !SkipsAnOpenDevice(net, open, off[..j], off[j], off[j]) {
        assert !SkipsAnOpenDevice(net, open, all[..j], all[j], all[j]);
      }
    }
  }

  lemma AllNearestSnoc(net: Network, open: set<int>, off: seq<int>, id: int)
    requires net.Valid() && id in net.nodes && id !in off && forall m :: m in off ==> m in net.nodes
    ensures AllNearest(net, open, off + [id])
       <==> AllNearest(net, open, off) && Walk(net, open, Searched(net, open, off), id, id) == Nearest(net, open, id)
  {
    assert (off + [id])[..|off|] == off;
    assert forall m :: m in off + [id] <==> m in off || m == id;
  }

  /** Each node gets its nearest open device exactly when no search stops at an open device listed before it. */
  lemma {:induction false} IsolatorsNearestIff(net: Network, open: set<int>, off: seq<int>)
    requires net.Valid() && Distinct(off) && forall id :: id in off ==> id in net.nodes
    ensures AllNearest(net, open, off) <==> NoneSkips(net, open, off)
  {
    if off != [] {
      var n := |off| - 1;
      IsolatorsNearestIff(net, open, off[..n]);
      assert off == off[..n] + [off[n]];
      NoneSkipsSnoc(net, open, off[..n], off[n]);
      AllNearestSnoc(net, open, off[..n], off[n]);
      if AllNearest(net, open, off[..n]) {
        WalkIsNearest(net, open, off[..n], off[n], off[n]);
      }
    }
  }

  /** There is a nearest open device exactly when some open device is strictly upstream. */
  lemma {:induction false} NearestIff(net: Network, open: set<int>, id: int)
    requires net.Valid() && id in net.nodes
    ensures Nearest(net, open, id) != 0 <==> CutOffAbove(net, open, id)
  {
    assert [id][..0] == [];
    assert Searched(net, open, []) == map[];
    assert Searched(net, open, [id])[id] == Nearest(net, open, id);
    AllIsolatedIff(net, open, [id]);
    assert id in [id];
  }

  // ------------------------------------------------------------------ concrete networks where the promise fails

  /** A source 1, two switches 2 and 3 in line, a customer 4 at the end. */
  function Feeder(): (net: Network)
    ensures net.Valid()
  {
    Network(
      map[1 := Node(true, false, 0, 0, false, 0, 0), 2 := Node(false, true, 2, 0, false, 1, 1),
          3 := Node(false, true, 2, 0, false, 2, 2), 4 := Node(false, false, 0, 1, false, 3, 3)],
      map[11 := Line(1, 2), 12 := Line(2, 3), 13 := Line(3, 4)])
  }

  lemma SearchedTwo(net: Network, open: set<int>, a: int, b: int)
    requires net.Valid() && a in net.nodes && b in net.nodes && a != b
    ensures var first := map[a := Walk(net, open, map[], a, a)];
            Searched(net, open, [a, b])[a] == Walk(net, open, map[], a, a)
            && Searched(net, open, [a, b])[b] == Walk(net, open, first, b, b)
  {
    assert [a, b][..1] == [a] && [a][..0] == [];
    assert Searched(net, open, [a]) == map[a := Walk(net, open, map[], a, a)];
  }

  lemma StillOffTwo(on: set<int>, a: int, b: int)
    requires a !in on && b !in on
    ensures StillOff(on, [a, b]) == [a, b]
  {
    assert [a, b][..1] == [a] && [a][..0] == [];
  }

  /** With switch 2 open, or line 12 cut, nothing beyond it is energised. */
  lemma FeederDark(pos: Position)
    requires 2 in pos.open || 12 in pos.cut
    ensures Live(Feeder(), pos) <= {1, 2}
  {
    var net := Feeder();
    forall a, b | a in {1, 2} && Feeds(net, pos, a, b) ensures b in {1, 2} {
      var e :| Conducts(net, pos, e, a, b);
    }
    LiveIsLeast(net, pos, {1, 2});
  }

  /** With both switches open, switch 3 and customer 4 are off, and customer 4 is attributed to 2 when switch 3 is
      listed first and to 3 when it comes first itself. */
  lemma OrderDecidesIsolator()
    ensures var on := Live(Feeder(), Position({2, 3}, {}, {}));
            StillOff(on, [3, 4]) == [3, 4] && StillOff(on, [4, 3]) == [4, 3]
    ensures Searched(Feeder(), {2, 3}, [3, 4])[4] == 2
    ensures Searched(Feeder(), {2, 3}, [4, 3])[4] == 3
    ensures Nearest(Feeder(), {2, 3}, 4) == 3
  {
    hide Live, StillOff, Searched;
    var net := Feeder();
    var on := Live(net, Position({2, 3}, {}, {}));
    FeederDark(Position({2, 3}, {}, {}));
    StillOffTwo(on, 3, 4);
    StillOffTwo(on, 4, 3);
    SearchedTwo(net, {2, 3}, 3, 4);
    SearchedTwo(net, {2, 3}, 4, 3);
    assert Walk(net, {2, 3}, map[], 3, 3) == Walk(net, {2, 3}, map[], 3, 2) == 2;
    assert Walk(net, {2, 3}, map[3 := 2], 4, 4) == Walk(net, {2, 3}, map[3 := 2], 4, 3) == 2;
    assert Walk(net, {2, 3}, map[], 4, 4) == Walk(net, {2, 3}, map[], 4, 3) == 3;
  }

  /** Switch 3 open and the line before it cut: both 3 and customer 4 are off. Listed after switch 3, which has nothing
      open upstream, customer 4 gets no isolator although 3 is open. */
  lemma OrderLosesIsolator()
    ensures StillOff(Live(Feeder(), Position({3}, {12}, {})), [3, 4]) == [3, 4]
    ensures CutOffAbove(Feeder(), {3}, 4)
    ensures Searched(Feeder(), {3}, [3, 4])[4] == 0
    ensures Nearest(Feeder(), {3}, 4) == 3
  {
    hide Live, StillOff, Searched;
    var net := Feeder();
    FeederDark(Position({3}, {12}, {}));
    StillOffTwo(Live(net, Position({3}, {12}, {})), 3, 4);
    assert Upstream(net, 4, 3);
    SearchedTwo(net, {3}, 3, 4);
    assert Walk(net, {3}, map[], 3, 3) == Walk(net, {3}, map[], 3, 2) == Walk(net, {3}, map[], 3, 1) == 0;
    assert Walk(net, {3}, map[3 := 0], 4, 4) == Walk(net, {3}, map[3 := 0], 4, 3) == 0;
    assert Walk(net, {3}, map[], 4, 4) == Walk(net, {3}, map[], 4, 3) == 3;
  }
}
