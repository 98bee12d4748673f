/** The update of hop distances after something was closed: distances can only fall, so it is enough to relax outwards
    from the ends of what was closed, nearest first. */
module Relaxing {
  import opened Listings
  import opened Network
  import opened Distances

  /** A heap of distances and nodes, of which only the order of removal matters. */
  type Heap = multiset<(int, int)>

  lemma {:induction false} HasLeast(h: Heap) returns (it: (int, int))
    requires h != multiset{}
    ensures it in h && forall x :: x in h ==> it.0 <= x.0
    decreases |h|
  {
    var some :| some in h;
    var rest := h - multiset{some};
    it := some;
    if rest != multiset{} {
      var least := HasLeast(rest);
      if least.0 < some.0 { it := least; }
      assert forall x :: x in rest ==> it.0 <= x.0;
    }
    forall x | x in h ensures it.0 <= x.0 {
      if x != some { assert x in rest; }
    }
  }

  /** Takes out an item of least distance: which of several is not specified. */
  method PopMin(h: Heap) returns (it: (int, int), rest: Heap)
    requires h != multiset{}
    ensures it in h && rest == h - multiset{it} && forall x :: x in h ==> it.0 <= x.0
  {
    var least := HasLeast(h);
    it :| it in h && forall x :: x in h ==> it.0 <= x.0;
    rest := h - multiset{it};
  }

  // ------------------------------------------------------------------ distances while they fall

  /** Something nearer feeds `n`. */
  ghost predicate Above(net: Network, pos: Position, dist: map<int, int>, n: int)
    requires n in dist
  {
    exists a :: a in dist && dist[a] < dist[n] && Feeds(net, pos, a, n)
  }

  ghost predicate Supported(net: Network, pos: Position, sources: set<int>, dist: map<int, int>) {
    && dist.Keys <= net.nodes.Keys
    && (forall n :: n in dist ==> dist[n] >= 0 && (dist[n] == 0 <==> n in sources))
    && (forall n :: n in sources ==> !Blocked(net, pos, n))
    && (forall n :: n in dist && n !in sources ==> Above(net, pos, dist, n))
  }

  /** Every item of the heap is a node at its distance, or was at some time. */
  predicate HeapFits(dist: map<int, int>, h: Heap) {
    forall x :: x in h ==> x.1 in dist && dist[x.1] <= x.0
  }

  /** The step from `a` to `b` is relaxed, or will be when `a` leaves the heap, or when a seed is taken up. */
  predicate Due(dist: map<int, int>, h: Heap, rest: set<int>, a: int, b: int)
    requires a in dist
  {
    Relaxed(dist, a, b) || (dist[a], a) in h || a in rest || (b in rest && b !in dist)
  }

  /** What holds while seeds are taken up; `rest` are those still to come. */
  ghost predicate Seeding(net: Network, pos: Position, sources: set<int>, dist: map<int, int>, h: Heap,
                          rest: set<int>) {
    && Supported(net, pos, sources, dist) && HeapFits(dist, h)
    && sources <= dist.Keys + rest && rest <= net.nodes.Keys
    && (forall s :: s in rest && s !in dist ==> (s in sources <==> Seed(net, pos, s)))
    && (forall a, b :: a in dist && Feeds(net, pos, a, b) ==> Due(dist, h, rest, a, b))
  }

  lemma SeedKnown(net: Network, pos: Position, sources: set<int>, dist: map<int, int>, h: Heap, rest: set<int>, s: int,
                  rest': set<int>)
    requires Seeding(net, pos, sources, dist, h, rest) && s in dist && rest' <= rest <= rest' + {s}
    ensures Seeding(net, pos, sources, dist, h + multiset{(dist[s], s)}, rest')
  {
    hide Supported, Feeds, Seed;
  }

  lemma SeedSkipped(net: Network, pos: Position, sources: set<int>, dist: map<int, int>, h: Heap, rest: set<int>,
                    s: int, rest': set<int>)
    requires Seeding(net, pos, sources, dist, h, rest) && s !in dist && rest' <= rest <= rest' + {s}
    requires s !in sources && forall a :: a in dist ==> !Feeds(net, pos, a, s)
    ensures Seeding(net, pos, sources, dist, h, rest')
  {
    hide Supported, Feeds, Seed;
  }

  lemma SupportedNext(net: Network, pos: Position, sources: set<int>, dist: map<int, int>, n: int, d: int)
    requires Supported(net, pos, sources, dist) && n in net.nodes && d >= 0
    requires d == 0 <==> n in sources
    requires n in dist ==> d <= dist[n]
    requires n !in sources ==> exists a :: a in dist && dist[a] < d && Feeds(net, pos, a, n)
    ensures Supported(net, pos, sources, dist[n := d])
  {
    hide Feeds, Blocked;
    var dist' := dist[n := d];
    forall m | m in dist' && m !in sources ensures Above(net, pos, dist', m) {
      if m == n {
        var a :| a in dist && dist[a] < d && Feeds(net, pos, a, n);
        assert dist'[a] < dist'[m];
      } else {
        assert Above(net, pos, dist, m);
        var a :| a in dist && dist[a] < dist[m] && Feeds(net, pos, a, m);
        assert dist'[a] < dist'[m];
      }
    }
  }

  lemma SeedGiven(net: Network, pos: Position, sources: set<int>, dist: map<int, int>, h: Heap, rest: set<int>, s: int,
                  rest': set<int>, best: int)
    requires Seeding(net, pos, sources, dist, h, rest) && s !in dist && rest' <= rest <= rest' + {s} && s in net.nodes
    requires best >= 0 && (best == 0 <==> s in sources)
    requires s !in sources ==> exists a :: a in dist && dist[a] < best && Feeds(net, pos, a, s)
    requires forall a :: a in dist && Feeds(net, pos, a, s) ==> best <= dist[a] + 1
    ensures Seeding(net, pos, sources, dist[s := best], h + multiset{(best, s)}, rest')
  {
    hide Supported, Feeds, Seed, Due, HeapFits;
    SupportedNext(net, pos, sources, dist, s, best);
    HeapFitsNext(dist, h, s, best);
    var dist', h' := dist[s := best], h + multiset{(best, s)};
    forall a, b | a in dist' && Feeds(net, pos, a, b) ensures Due(dist', h', rest', a, b) {
      if a != s {
        DueStill(dist, h, rest, s, rest', best, a, b);
      } else {
        DueNow(dist, h, rest', s, best, b);
      }
    }
  }

  lemma HeapFitsNext(dist: map<int, int>, h: Heap, n: int, d: int)
    requires HeapFits(dist, h) && (n in dist ==> d <= dist[n])
    ensures HeapFits(dist[n := d], h + multiset{(d, n)})
  {
    forall x | x in h + multiset{(d, n)} ensures x.1 in dist[n := d] && dist[n := d][x.1] <= x.0 {
      if x != (d, n) { assert x in h; }
    }
  }

  lemma DueNow(dist: map<int, int>, h: Heap, rest: set<int>, s: int, d: int, b: int)
    ensures Due(dist[s := d], h + multiset{(d, s)}, rest, s, b)
  {
    assert (d, s) in h + multiset{(d, s)};
  }

  lemma DueStill(dist: map<int, int>, h: Heap, rest: set<int>, s: int, rest': set<int>, best: int, a: int, b: int)
    requires a in dist && Due(dist, h, rest, a, b) && a != s && s !in dist && rest <= rest' + {s}
    requires b == s ==> best <= dist[a] + 1
    ensures Due(dist[s := best], h + multiset{(best, s)}, rest', a, b)
  {
    var it := (best, s);
    assert forall x :: x in h ==> x in h + multiset{it};
  }

  /** The distance a node gets from its nearest neighbour, or -1. */
  method FromNeighbours(net: Network, pos: Position, dist: map<int, int>, s: int) returns (best: int)
    requires net.Valid() && s in net.nodes && s !in dist && !Blocked(net, pos, s)
    requires forall n :: n in dist ==> dist[n] >= 0
    ensures Seed(net, pos, s) ==> best == 0
    ensures best == 0 ==> Seed(net, pos, s)
    ensures best > 0 ==> exists a :: a in dist && dist[a] < best && Feeds(net, pos, a, s)
    ensures forall a :: a in dist && Feeds(net, pos, a, s) ==> 0 <= best <= dist[a] + 1
  {
    hide Feeds;
    best := -1;
    if net.nodes[s].source && s !in pos.open { best := 0; }
    var lines := LinesAt(net, s);
    while lines != {}
      invariant lines <= LinesAt(net, s)
      invariant Seed(net, pos, s) ==> best == 0
      invariant best == 0 ==> Seed(net, pos, s)
      invariant best > 0 ==> exists a :: a in dist && dist[a] < best && Feeds(net, pos, a, s)
      invariant forall e, a :: Passable(net, pos, e, s, a) && e !in lines && a in dist && a !in pos.open ==>
        0 <= best <= dist[a] + 1
      decreases lines
    {
      var e := Pick(lines);
      lines := lines - {e};
      var nb := net.lines[e].Other(s);
      if Passable(net, pos, e, s, nb) && nb in dist && nb !in pos.open && (best < 0 || dist[nb] + 1 < best) {
        best := dist[nb] + 1;
        FeedsAlong(net, pos, e, nb, s);
      }
    }
    forall a | a in dist && Feeds(net, pos, a, s) ensures 0 <= best <= dist[a] + 1 {
      var e := LineOf(net, pos, a, s);
    }
  }

  lemma FeedsAlong(net: Network, pos: Position, e: int, a: int, b: int)
    requires Passable(net, pos, e, b, a) && a !in pos.open && !Blocked(net, pos, b)
    ensures Feeds(net, pos, a, b)
  {
    PassableBothWays(net, pos, e, b, a);
    assert Conducts(net, pos, e, a, b);
  }

  lemma LineOf(net: Network, pos: Position, a: int, b: int) returns (e: int)
    requires Feeds(net, pos, a, b)
    ensures Passable(net, pos, e, b, a) && a !in pos.open && !Blocked(net, pos, b) && e in LinesAt(net, b)
    ensures Conducts(net, pos, e, a, b) && e in LinesAt(net, a)
  {
    e :| Conducts(net, pos, e, a, b);
    PassableBothWays(net, pos, e, a, b);
  }

  lemma SeedingFacts(net: Network, pos: Position, sources: set<int>, dist: map<int, int>, h: Heap, rest: set<int>,
                     s: int)
    requires Seeding(net, pos, sources, dist, h, rest) && s in rest
    ensures s in net.nodes && (forall n :: n in dist ==> dist[n] >= 0)
    ensures s !in dist ==> (s in sources <==> Seed(net, pos, s))
    ensures s in sources ==> !Blocked(net, pos, s)
  {
    hide Feeds, Above;
  }

  /** Takes up one seed: it goes on the heap at its distance, or at the one its neighbours give it. */
  method SeedOne(net: Network, pos: Position, ghost sources: set<int>, dist0: map<int, int>, h0: Heap,
                 ghost rest: set<int>,
                 s: int, ghost rest': set<int>) returns (dist: map<int, int>, h: Heap, given: bool)
    requires net.Valid() && Seeding(net, pos, sources, dist0, h0, rest) && s in rest && rest' <= rest <= rest' + {s}
    ensures Seeding(net, pos, sources, dist, h, rest')
    ensures if given then s !in dist0 && s in dist && dist == dist0[s := dist[s]] else dist == dist0
  {
    hide Seeding, Feeds, Seed;
    SeedingFacts(net, pos, sources, dist0, h0, rest, s);
    dist, h, given := dist0, h0, false;
    if s in dist {
      SeedKnown(net, pos, sources, dist, h, rest, s, rest');
      h := h + multiset{(dist[s], s)};
      return;
    }
    if Blocked(net, pos, s) {
      forall a | a in dist ensures !Feeds(net, pos, a, s) {
        if Feeds(net, pos, a, s) { var e := LineOf(net, pos, a, s); }
      }
      SeedSkipped(net, pos, sources, dist, h, rest, s, rest');
      return;
    }
    var best := FromNeighbours(net, pos, dist, s);
    if best >= 0 {
      SeedGiven(net, pos, sources, dist, h, rest, s, rest', best);
      dist := dist[s := best];
      h := h + multiset{(best, s)};
      given := true;
    } else {
      SeedSkipped(net, pos, sources, dist, h, rest, s, rest');
    }
  }

  /** `changed` names every node whose distance is not what it was. */
  ghost predicate Tracked(before: map<int, int>, dist: map<int, int>, changed: seq<int>) {
    && before.Keys <= dist.Keys
    && (forall n :: n in changed ==> n in dist)
    && (forall n :: n in dist && n !in changed ==> n in before && dist[n] == before[n])
  }

  lemma TrackedNext(before: map<int, int>, dist: map<int, int>, changed: seq<int>, n: int, d: int)
    requires Tracked(before, dist, changed)
    ensures Tracked(before, dist[n := d], changed + [n])
  {
  }

  // ------------------------------------------------------------------ relaxing outwards

  /** While the steps out of `id` along the given lines are still to be looked at. */
  ghost predicate Spreading(net: Network, pos: Position, sources: set<int>, dist: map<int, int>, h: Heap, id: int,
                            lines: set<int>) {
    && Supported(net, pos, sources, dist) && HeapFits(dist, h) && sources <= dist.Keys && id in dist
    && (forall a, b :: a in dist && Feeds(net, pos, a, b) ==>
          Due(dist, h, {}, a, b) || (a == id && exists e :: e in lines && Conducts(net, pos, e, a, b)))
  }

  lemma SpreadStarts(net: Network, pos: Position, sources: set<int>, dist: map<int, int>, h: Heap, it: (int, int))
    requires Seeding(net, pos, sources, dist, h, {}) && it in h
    ensures it.1 in dist && dist[it.1] <= it.0
    ensures dist[it.1] < it.0 || it.1 in pos.open ==> Seeding(net, pos, sources, dist, h - multiset{it}, {})
    ensures dist[it.1] == it.0 ==>
      Spreading(net, pos, sources, dist, h - multiset{it}, it.1, LinesAt(net, it.1))
  {
    hide Supported, Seed;
    var h' := h - multiset{it};
    assert forall x :: x in h && x != it ==> x in h';
    forall a, b | a in dist && Feeds(net, pos, a, b) && dist[it.1] == it.0
      ensures Due(dist, h', {}, a, b)
        || (a == it.1 && exists e :: e in LinesAt(net, it.1) && Conducts(net, pos, e, a, b))
    {
      assert Due(dist, h, {}, a, b);
      if a == it.1 { var e := LineOf(net, pos, a, b); }
    }
  }

  lemma SpreadKnown(net: Network, pos: Position, sources: set<int>, dist: map<int, int>, h: Heap, id: int,
                    lines: set<int>)
    requires Spreading(net, pos, sources, dist, h, id, lines)
    ensures id in dist
  {
  }

  lemma SpreadEnds(net: Network, pos: Position, sources: set<int>, dist: map<int, int>, h: Heap, id: int)
    requires Spreading(net, pos, sources, dist, h, id, {})
    ensures Seeding(net, pos, sources, dist, h, {})
  {
    hide Supported, Feeds, Seed;
  }

  lemma SpreadPast(net: Network, pos: Position, sources: set<int>, dist: map<int, int>, h: Heap, id: int,
                   lines: set<int>, e: int, nb: int)
    requires Spreading(net, pos, sources, dist, h, id, lines) && e in net.lines && net.lines[e].Other(id) == nb
    requires Conducts(net, pos, e, id, nb) ==> Relaxed(dist, id, nb)
    ensures Spreading(net, pos, sources, dist, h, id, lines - {e})
  {
    hide Supported;
    forall a, b | a in dist && Feeds(net, pos, a, b)
      ensures Due(dist, h, {}, a, b) || (a == id && exists f :: f in lines - {e} && Conducts(net, pos, f, a, b))
    {
      if !Due(dist, h, {}, a, b) {
        var f :| f in lines && Conducts(net, pos, f, a, b);
        assert f != e;
      }
    }
  }

  lemma SpreadTo(net: Network, pos: Position, sources: set<int>, dist: map<int, int>, h: Heap, id: int, lines: set<int>,
                 nb: int)
    requires Spreading(net, pos, sources, dist, h, id, lines) && Feeds(net, pos, id, nb) && nb in net.nodes
    requires nb in dist ==> dist[id] + 1 < dist[nb]
    ensures var d := dist[id] + 1;
      Spreading(net, pos, sources, dist[nb := d], h + multiset{(d, nb)}, id, lines) && nb != id
  {
    hide Feeds, Conducts;
    var d := dist[id] + 1;
    SpreadSupported(net, pos, sources, dist, h, id, lines, nb);
    var dist', h' := dist[nb := d], h + multiset{(d, nb)};
    assert (d, nb) in h';
    forall a, b | a in dist' && Feeds(net, pos, a, b)
      ensures Due(dist', h', {}, a, b) || (a == id && exists e :: e in lines && Conducts(net, pos, e, a, b))
    {
      if a != nb {
        assert dist'[a] == dist[a];
        assert Due(dist, h, {}, a, b) || (a == id && exists e :: e in lines && Conducts(net, pos, e, a, b));
      }
    }
  }

  lemma SpreadSupported(net: Network, pos: Position, sources: set<int>, dist: map<int, int>, h: Heap, id: int,
                        lines: set<int>, nb: int)
    requires Spreading(net, pos, sources, dist, h, id, lines) && Feeds(net, pos, id, nb) && nb in net.nodes
    requires nb in dist ==> dist[id] + 1 < dist[nb]
    ensures Supported(net, pos, sources, dist[nb := dist[id] + 1])
  {
    hide Feeds, Conducts;
    SupportedNext(net, pos, sources, dist, nb, dist[id] + 1);
  }

  /** What the order of removal gives: a node is relaxed at most once. */
  ghost predicate Rising(net: Network, dist: map<int, int>, h: Heap, done: set<int>, last: int) {
    && done <= dist.Keys <= net.nodes.Keys
    && (forall n :: n in done ==> dist[n] <= last + 1)
    && (forall x :: x in h ==> x.0 >= last)
  }

  /** Relaxes every step out of `id`. */
  method RelaxNode(net: Network, pos: Position, ghost sources: set<int>, dist0: map<int, int>, h0: Heap, d: int,
                   id: int, changed0: seq<int>, ghost before: map<int, int>, ghost done0: set<int>)
    returns (dist: map<int, int>, h: Heap, changed: seq<int>, ghost done: set<int>)
    requires net.Valid() && Spreading(net, pos, sources, dist0, h0, id, LinesAt(net, id)) && id !in pos.open
    requires dist0[id] == d && Rising(net, dist0, h0, done0, d) && Tracked(before, dist0, changed0)
    ensures Seeding(net, pos, sources, dist, h, {}) && Rising(net, dist, h, done, d) && Tracked(before, dist, changed)
    ensures done0 <= done && (done == done0 ==> h == h0)
  {
    hide Spreading, Seeding, Feeds, Tracked, Seed;
    dist, h, changed, done := dist0, h0, changed0, done0;
    SpreadKnown(net, pos, sources, dist, h, id, LinesAt(net, id));
    var lines := LinesAt(net, id);
    while lines != {}
      invariant lines <= LinesAt(net, id) && id in dist && dist[id] == d
      invariant Spreading(net, pos, sources, dist, h, id, lines)
      invariant Rising(net, dist, h, done, d) && Tracked(before, dist, changed)
      invariant done0 <= done && (done == done0 ==> h == h0)
      decreases lines
    {
      var e := Pick(lines);
      var nb := net.lines[e].Other(id);
      PassableBothWays(net, pos, e, id, nb);
      if Passable(net, pos, e, id, nb) && !Blocked(net, pos, nb) && (nb !in dist || d + 1 < dist[nb]) {
        FeedsAlong(net, pos, e, id, nb);
        SpreadTo(net, pos, sources, dist, h, id, lines, nb);
        TrackedNext(before, dist, changed, nb, d + 1);
        assert nb !in done;
        done := done + {nb};
        dist := dist[nb := d + 1];
        changed := changed + [nb];
        h := h + multiset{(d + 1, nb)};
      }
      SpreadPast(net, pos, sources, dist, h, id, lines, e, nb);
      lines := lines - {e};
    }
    SpreadEnds(net, pos, sources, dist, h, id);
  }

  lemma RelaxedAll(net: Network, pos: Position, sources: set<int>, dist: map<int, int>)
    requires Seeding(net, pos, sources, dist, multiset{}, {})
    ensures Exact(net, pos, sources, dist)
  {
    hide Feeds, Blocked, Seed;
    forall a, b | a in dist && Feeds(net, pos, a, b) ensures Relaxed(dist, a, b) {
      assert Due(dist, multiset{}, {}, a, b);
    }
    forall n | n in dist && n !in sources ensures Backed(net, pos, dist, n) {
      assert Above(net, pos, dist, n);
      var a :| a in dist && dist[a] < dist[n] && Feeds(net, pos, a, n);
      assert Relaxed(dist, a, n);
    }
  }

  lemma SeedingRises(net: Network, pos: Position, sources: set<int>, dist: map<int, int>, h: Heap)
    requires Seeding(net, pos, sources, dist, h, {})
    ensures Rising(net, dist, h, {}, 0)
  {
    hide Feeds, Above, Due;
    forall x | x in h ensures x.0 >= 0 {
      var n := x.1;
      assert n in dist && dist[n] >= 0;
    }
  }

  /** Relaxes from the seeds outwards: the distances from the sources of the new position, and the nodes whose distance
      changed. */
  method RelaxFrom(net: Network, pos: Position, ghost sources: set<int>, before: map<int, int>, seeds: seq<int>)
    returns (dist: map<int, int>, changed: seq<int>)
    requires net.Valid() && Seeding(net, pos, sources, before, multiset{}, Members(seeds))
    ensures Exact(net, pos, sources, dist) && Tracked(before, dist, changed)
  {
    hide Seeding, Exact, Tracked, Rising;
    dist, changed := before, [];
    TrackedNothing(before);
    var h: Heap := multiset{};
    assert seeds[0..] == seeds;
    for i := 0 to |seeds|
      invariant Seeding(net, pos, sources, dist, h, Members(seeds[i..])) && Tracked(before, dist, changed)
    {
      var given;
      assert seeds[i..] == [seeds[i]] + seeds[i + 1..];
      ghost var was := dist;
      dist, h, given := SeedOne(net, pos, sources, dist, h, Members(seeds[i..]), seeds[i], Members(seeds[i + 1..]));
      if given {
        TrackedNext(before, was, changed, seeds[i], dist[seeds[i]]);
        changed := changed + [seeds[i]];
      }
    }
    assert Members(seeds[|seeds|..]) == {};
    SeedingRises(net, pos, sources, dist, h);
    ghost var done, last := {}, 0;
    while h != multiset{}
      invariant Seeding(net, pos, sources, dist, h, {}) && Rising(net, dist, h, done, last)
        && Tracked(before, dist, changed)
      decreases net.nodes.Keys - done, |h|
    {
      var it, rest := PopMin(h);
      SpreadStarts(net, pos, sources, dist, h, it);
      Later(net, dist, h, done, last, it);
      last := it.0;
      h := rest;
      if dist[it.1] < it.0 || it.1 in pos.open { continue; }
      ghost var done0 := done;
      dist, h, changed, done := RelaxNode(net, pos, sources, dist, h, it.0, it.1, changed, before, done);
      DoneInside(net, dist, h, done, last);
    }
    RelaxedAll(net, pos, sources, dist);
  }

  lemma TrackedNothing(before: map<int, int>)
    ensures Tracked(before, before, [])
  {
  }

  lemma DoneInside(net: Network, dist: map<int, int>, h: Heap, done: set<int>, last: int)
    requires Rising(net, dist, h, done, last)
    ensures done <= net.nodes.Keys
  {
  }

  lemma Later(net: Network, dist: map<int, int>, h: Heap, done: set<int>, last: int, it: (int, int))
    requires Rising(net, dist, h, done, last) && it in h && forall x :: x in h ==> it.0 <= x.0
    ensures Rising(net, dist, h - multiset{it}, done, it.0)
  {
  }
}
