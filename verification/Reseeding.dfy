/** The update of hop distances after something was opened: only nodes whose shortest ways may have led through it, the
    cone, are forgotten and given new distances from the neighbours that are left, nearest first. */
module Reseeding {
  import opened Listings
  import opened Network
  import opened Distances
  import opened Relaxing

  /** `x` is a root, or something one hop nearer still feeds it, or is a root that did. */
  ghost predicate Rooted(net: Network, pos: Position, dist: map<int, int>, roots: set<int>, x: int)
    requires x in dist
  {
    x in roots || exists p :: p in dist && dist[p] + 1 == dist[x] && StillLeads(net, pos, roots, p, x)
  }

  ghost predicate StillLeads(net: Network, pos: Position, roots: set<int>, p: int, x: int) {
    Feeds(net, pos, p, x) || (p in roots && exists e :: Passable(net, pos, e, p, x))
  }

  /** What an opening leaves: distances that may be too small, but only at what hangs from the roots. */
  ghost predicate Opened(net: Network, pos: Position, sources: set<int>, dist: map<int, int>, roots: set<int>) {
    && dist.Keys <= net.nodes.Keys && (forall n :: n in dist ==> dist[n] >= 0)
    && roots <= dist.Keys && sources <= dist.Keys && roots !! sources
    && (forall n :: n in sources ==> dist[n] == 0 && !Blocked(net, pos, n))
    && (forall a, b :: a in dist && Feeds(net, pos, a, b) ==> Relaxed(dist, a, b))
    && (forall x :: x in dist && x !in sources ==> Rooted(net, pos, dist, roots, x))
  }

  // ------------------------------------------------------------------ the cone

  /** Power could have gone on from `a` to `b`. */
  ghost predicate LeadsOn(net: Network, pos: Position, dist: map<int, int>, a: int, b: int)
    requires a in dist
  {
    b in dist && dist[b] == dist[a] + 1 && exists e :: Passable(net, pos, e, a, b)
  }

  /** A node from which the cone is widened. */
  predicate Widens(pos: Position, roots: set<int>, a: int) {
    a in roots || a !in pos.open
  }

  ghost predicate IsCone(net: Network, pos: Position, dist: map<int, int>, roots: set<int>, cone: set<int>) {
    && roots <= cone <= dist.Keys && (forall x :: x in cone ==> x in roots || dist[x] > 0)
    && (forall a, b :: a in cone && Widens(pos, roots, a) && LeadsOn(net, pos, dist, a, b) ==> b in cone)
  }

  /** While the cone grows: its nodes are listed, the roots first, and those before `head` have been looked at. */
  ghost predicate Growing(net: Network, pos: Position, dist: map<int, int>, roots: set<int>, cone: set<int>,
                          queue: seq<int>, nRoots: nat, head: nat) {
    && Lists(queue, cone) && nRoots <= |queue| && head <= |queue| && Lists(queue[..nRoots], roots)
    && roots <= cone <= dist.Keys && (forall x :: x in cone ==> x in roots || dist[x] > 0)
    && (forall i, b :: (0 <= i < head && Widens(pos, roots, queue[i]) && queue[i] in dist
                        && LeadsOn(net, pos, dist, queue[i], b)) ==> b in cone)
  }

  lemma GrowOne(net: Network, pos: Position, dist: map<int, int>, roots: set<int>, cone: set<int>, queue: seq<int>,
                nRoots: nat, head: nat, nb: int)
    requires Growing(net, pos, dist, roots, cone, queue, nRoots, head) && nb in dist && dist[nb] > 0 && nb !in cone
    ensures Growing(net, pos, dist, roots, cone + {nb}, queue + [nb], nRoots, head)
  {
    hide LeadsOn, Widens;
    ListsAppend(queue, cone, nb);
    assert (queue + [nb])[..nRoots] == queue[..nRoots];
  }

  lemma GrowPast(net: Network, pos: Position, dist: map<int, int>, roots: set<int>, cone: set<int>, queue: seq<int>,
                 nRoots: nat, head: nat)
    requires Growing(net, pos, dist, roots, cone, queue, nRoots, head) && head < |queue|
    requires Widens(pos, roots, queue[head]) && queue[head] in dist ==>
      forall b :: LeadsOn(net, pos, dist, queue[head], b) ==> b in cone
    ensures Growing(net, pos, dist, roots, cone, queue, nRoots, head + 1)
  {
    hide LeadsOn, Widens;
  }

  lemma GrowFacts(net: Network, pos: Position, dist: map<int, int>, roots: set<int>, cone: set<int>, queue: seq<int>,
                  nRoots: nat, head: nat)
    requires Growing(net, pos, dist, roots, cone, queue, nRoots, head)
    ensures head < |queue| ==> queue[head] in cone && queue[head] in dist && (queue[head] in roots <==> head < nRoots)
    ensures head <= |queue| <= |dist.Keys|
  {
    hide LeadsOn, Widens;
    if head < |queue| {
      assert queue[head] in queue;
      if head < nRoots { assert queue[head] == queue[..nRoots][head]; }
    }
    QueueFits(queue, dist.Keys);
  }

  lemma GrownIsCone(net: Network, pos: Position, dist: map<int, int>, roots: set<int>, cone: set<int>, queue: seq<int>,
                    nRoots: nat)
    requires Growing(net, pos, dist, roots, cone, queue, nRoots, |queue|)
    ensures IsCone(net, pos, dist, roots, cone) && Lists(queue, cone)
  {
    hide LeadsOn, Widens;
    forall a, b | a in cone && Widens(pos, roots, a) && LeadsOn(net, pos, dist, a, b) ensures b in cone {
      assert a in queue;
    }
  }

  /** Widens the cone from the node at `head`. */
  method Widen(net: Network, pos: Position, dist: map<int, int>, ghost roots: set<int>, cone0: set<int>,
               queue0: seq<int>, nRoots: nat, head: nat) returns (cone: set<int>, queue: seq<int>)
    requires net.Valid() && Growing(net, pos, dist, roots, cone0, queue0, nRoots, head) && head < |queue0|
    requires forall n :: n in dist ==> dist[n] >= 0
    ensures Growing(net, pos, dist, roots, cone, queue, nRoots, head + 1)
  {
    hide Growing, LeadsOn;
    cone, queue := cone0, queue0;
    var cur := queue[head];
    GrowFacts(net, pos, dist, roots, cone, queue, nRoots, head);
    if (head >= nRoots && cur in pos.open) || cur !in dist {
      GrowPast(net, pos, dist, roots, cone, queue, nRoots, head);
      return;
    }
    var lines := LinesAt(net, cur);
    while lines != {}
      invariant lines <= LinesAt(net, cur) && head < |queue| && queue[head] == cur
      invariant Growing(net, pos, dist, roots, cone, queue, nRoots, head)
      invariant forall e, b :: Passable(net, pos, e, cur, b) && e !in lines && b in dist && dist[b] == dist[cur] + 1 ==>
        b in cone
      decreases lines
    {
      var e := Pick(lines);
      lines := lines - {e};
      var nb := net.lines[e].Other(cur);
      if Passable(net, pos, e, cur, nb) && nb !in cone && nb in dist && dist[nb] == dist[cur] + 1 {
        GrowOne(net, pos, dist, roots, cone, queue, nRoots, head, nb);
        cone := cone + {nb};
        queue := queue + [nb];
      }
    }
    forall b | LeadsOn(net, pos, dist, cur, b) ensures b in cone {
      LeadsAlong(net, pos, dist, cur, b);
    }
    GrowPast(net, pos, dist, roots, cone, queue, nRoots, head);
  }

  lemma LeadsAlong(net: Network, pos: Position, dist: map<int, int>, a: int, b: int)
    requires a in dist && LeadsOn(net, pos, dist, a, b)
    ensures b in dist && dist[b] == dist[a] + 1 && exists e :: Passable(net, pos, e, a, b)
  {
  }

  /** The roots, each once. */
  method Roots(list: seq<int>) returns (queue: seq<int>, cone: set<int>)
    ensures cone == Members(list) && Lists(queue, cone)
  {
    queue, cone := [], {};
    for i := 0 to |list|
      invariant cone == Members(list[..i]) && Lists(queue, cone)
    {
      assert list[..i + 1] == list[..i] + [list[i]];
      if list[i] !in cone {
        ListsAppend(queue, cone, list[i]);
        queue, cone := queue + [list[i]], cone + {list[i]};
      }
    }
    assert list[..|list|] == list;
  }

  lemma GrowStarts(net: Network, pos: Position, dist: map<int, int>, roots: set<int>, queue: seq<int>)
    requires Lists(queue, roots) && roots <= dist.Keys
    ensures Growing(net, pos, dist, roots, roots, queue, |queue|, 0)
  {
    hide LeadsOn, Widens;
    assert queue[..|queue|] == queue;
  }

  /** The nodes that can be reached from the roots by steps that lead one hop further. */
  method FindCone(net: Network, pos: Position, dist: map<int, int>, list: seq<int>)
    returns (cone: set<int>, queue: seq<int>)
    requires net.Valid() && Members(list) <= dist.Keys && forall n :: n in dist ==> dist[n] >= 0
    ensures IsCone(net, pos, dist, Members(list), cone) && Lists(queue, cone)
  {
    hide Growing, IsCone;
    queue, cone := Roots(list);
    ghost var roots := cone;
    var nRoots := |queue|;
    GrowStarts(net, pos, dist, roots, queue);
    var head := 0;
    GrowFacts(net, pos, dist, roots, cone, queue, nRoots, head);
    while head < |queue|
      invariant Growing(net, pos, dist, roots, cone, queue, nRoots, head) && head <= |queue| <= |dist.Keys|
      decreases |dist.Keys| - head
    {
      cone, queue := Widen(net, pos, dist, roots, cone, queue, nRoots, head);
      head := head + 1;
      GrowFacts(net, pos, dist, roots, cone, queue, nRoots, head);
    }
    GrownIsCone(net, pos, dist, roots, cone, queue, nRoots);
  }

  /** Outside the cone every distance still has its reason. */
  lemma OutsideIsLabelled(net: Network, pos: Position, sources: set<int>, dist: map<int, int>, roots: set<int>,
                          cone: set<int>)
    requires Opened(net, pos, sources, dist, roots) && IsCone(net, pos, dist, roots, cone)
    ensures Labelled(net, pos, sources, dist - cone) && (dist - cone).Keys == dist.Keys - cone
  {
    hide Feeds, Blocked, LeadsOn, StillLeads;
    var left := dist - cone;
    forall x | x in left && x !in sources ensures Backed(net, pos, left, x) && left[x] > 0 {
      assert Rooted(net, pos, dist, roots, x);
      var p :| p in dist && dist[p] + 1 == dist[x] && StillLeads(net, pos, roots, p, x);
      LeadsInto(net, pos, dist, roots, p, x);
      assert p !in cone;
      assert left[p] + 1 == left[x];
    }
    forall z | z in sources ensures z !in cone {
    }
  }

  /** Whatever may have led to `x` widens the cone to it, or feeds it still. */
  lemma LeadsInto(net: Network, pos: Position, dist: map<int, int>, roots: set<int>, p: int, x: int)
    requires p in dist && x in dist && dist[p] + 1 == dist[x] && StillLeads(net, pos, roots, p, x)
    ensures LeadsOn(net, pos, dist, p, x) && Widens(pos, roots, p)
    ensures p !in roots ==> Feeds(net, pos, p, x)
  {
    if Feeds(net, pos, p, x) { var e := LineOf(net, pos, p, x); PassableBothWays(net, pos, e, x, p); }
  }

  // ------------------------------------------------------------------ new distances in the cone

  /** A neighbour offers the node this distance. */
  ghost predicate Offered(net: Network, pos: Position, dist: map<int, int>, d: int, n: int) {
    exists a :: a in dist && dist[a] + 1 == d && Feeds(net, pos, a, n)
  }

  /** The step from `a` to `b` is relaxed, or `b` is waiting for it. */
  predicate Waiting(dist: map<int, int>, h: Heap, a: int, b: int)
    requires a in dist
  {
    Relaxed(dist, a, b) || (b !in dist && (dist[a] + 1, b) in h)
  }

  /** What does not change while distances are given out: `dist` keeps what is outside the cone and gives no node less
      than it had. */
  ghost predicate Kept(dist0: map<int, int>, cone: set<int>, dist: map<int, int>) {
    && cone <= dist0.Keys && (forall n :: n in dist ==> n in dist0 && dist[n] >= dist0[n])
    && (forall n :: n in dist0 && n !in cone ==> n in dist && dist[n] == dist0[n])
  }

  ghost predicate Offers(net: Network, pos: Position, cone: set<int>, dist: map<int, int>, h: Heap, last: int) {
    && (forall x :: x in h ==> x.1 in cone && x.0 >= last && Offered(net, pos, dist, x.0, x.1))
    && (forall n :: n in cone && n in dist ==> dist[n] <= last)
  }

  ghost predicate Settling(net: Network, pos: Position, sources: set<int>, dist0: map<int, int>, cone: set<int>,
                           dist: map<int, int>, h: Heap, last: int) {
    && Labelled(net, pos, sources, dist) && Kept(dist0, cone, dist) && Offers(net, pos, cone, dist, h, last)
    && (forall a, b :: a in dist && Feeds(net, pos, a, b) ==> Waiting(dist, h, a, b))
  }

  /** While the steps out of `id` along the given lines are still to be offered. */
  ghost predicate Offering(net: Network, pos: Position, sources: set<int>, dist0: map<int, int>, cone: set<int>,
                           dist: map<int, int>, h: Heap, last: int, id: int, lines: set<int>) {
    && Labelled(net, pos, sources, dist) && Kept(dist0, cone, dist) && Offers(net, pos, cone, dist, h, last)
    && id in dist && dist[id] == last
    && (forall a, b :: a in dist && Feeds(net, pos, a, b) ==>
          Waiting(dist, h, a, b) || (a == id && b !in dist && exists e :: e in lines && Conducts(net, pos, e, a, b)))
  }

  /** Distances only grow by an opening, so no step was too long before. */
  ghost predicate WasRelaxed(net: Network, pos: Position, dist0: map<int, int>) {
    forall a, b :: a in dist0 && Feeds(net, pos, a, b) ==> Relaxed(dist0, a, b)
  }

  lemma SettleSkip(net: Network, pos: Position, sources: set<int>, dist0: map<int, int>, cone: set<int>,
                   dist: map<int, int>, h: Heap, last: int, it: (int, int))
    requires Settling(net, pos, sources, dist0, cone, dist, h, last) && it in h && it.1 in dist
    requires forall x :: x in h ==> it.0 <= x.0
    ensures Settling(net, pos, sources, dist0, cone, dist, h - multiset{it}, it.0)
  {
    hide Labelled, Feeds, Offered, Kept;
    var h' := h - multiset{it};
    assert forall x :: x in h && x != it ==> x in h';
    forall a, b | a in dist && Feeds(net, pos, a, b) ensures Waiting(dist, h', a, b) {
      assert Waiting(dist, h, a, b);
    }
  }

  /** An offer stands while distances are added. */
  lemma OfferStands(net: Network, pos: Position, dist: map<int, int>, n: int, d: int, o: int, m: int)
    requires n !in dist && Offered(net, pos, dist, o, m)
    ensures Offered(net, pos, dist[n := d], o, m)
  {
    hide Feeds;
    var a :| a in dist && dist[a] + 1 == o && Feeds(net, pos, a, m);
    assert dist[n := d][a] + 1 == o;
  }

  lemma TakesOffer(net: Network, pos: Position, cone: set<int>, dist: map<int, int>, h: Heap, last: int, it: (int, int))
    returns (a: int)
    requires Offers(net, pos, cone, dist, h, last) && it in h
    ensures it.1 in cone && it.0 >= last
    ensures a in dist && dist[a] + 1 == it.0 && Feeds(net, pos, a, it.1)
  {
    hide Feeds;
    assert Offered(net, pos, dist, it.0, it.1);
    a :| a in dist && dist[a] + 1 == it.0 && Feeds(net, pos, a, it.1);
  }

  lemma KeptNext(dist0: map<int, int>, cone: set<int>, dist: map<int, int>, n: int, d: int)
    requires Kept(dist0, cone, dist) && n in cone && n !in dist && dist0[n] <= d
    ensures Kept(dist0, cone, dist[n := d])
  {
  }

  lemma NoLess(net: Network, pos: Position, dist0: map<int, int>, cone: set<int>, dist: map<int, int>, a: int, n: int)
    requires Kept(dist0, cone, dist) && WasRelaxed(net, pos, dist0) && a in dist && Feeds(net, pos, a, n)
    ensures n in dist0 && dist0[n] <= dist[a] + 1
  {
    hide Feeds;
    assert Relaxed(dist0, a, n);
  }

  lemma SettleLabelled(net: Network, pos: Position, sources: set<int>, dist0: map<int, int>, cone: set<int>,
                       dist: map<int, int>, h: Heap, last: int, it: (int, int))
    requires Settling(net, pos, sources, dist0, cone, dist, h, last) && it in h && it.1 !in dist
    requires dist0.Keys <= net.nodes.Keys && WasRelaxed(net, pos, dist0)
    ensures it.1 in cone && it.0 >= last && Labelled(net, pos, sources, dist[it.1 := it.0])
    ensures it.1 in dist0 && dist0[it.1] <= it.0 && Kept(dist0, cone, dist[it.1 := it.0])
  {
    hide Feeds, Labelled, Offers, Kept, Waiting, WasRelaxed;
    var a := TakesOffer(net, pos, cone, dist, h, last, it);
    NoLess(net, pos, dist0, cone, dist, a, it.1);
    LabelledNext(net, pos, sources, dist, a, it.1);
    KeptNext(dist0, cone, dist, it.1, it.0);
  }

  lemma SettleOffers(net: Network, pos: Position, cone: set<int>, dist: map<int, int>, h: Heap, last: int,
                     it: (int, int))
    requires Offers(net, pos, cone, dist, h, last) && it in h && it.1 !in dist
    requires forall x :: x in h ==> it.0 <= x.0
    ensures Offers(net, pos, cone, dist[it.1 := it.0], h - multiset{it}, it.0)
  {
    hide Offered;
    var dist', h' := dist[it.1 := it.0], h - multiset{it};
    forall x | x in h' ensures x.1 in cone && x.0 >= it.0 && Offered(net, pos, dist', x.0, x.1) {
      assert x in h;
      OfferStands(net, pos, dist, it.1, it.0, x.0, x.1);
    }
  }

  /** The steps into the node that gets its distance are relaxed, as it is the nearest waiting. */
  lemma StepsInto(dist: map<int, int>, h: Heap, it: (int, int), a: int, b: int)
    requires it in h && it.1 !in dist && (forall x :: x in h ==> it.0 <= x.0) && a in dist && Waiting(dist, h, a, b)
    ensures Waiting(dist[it.1 := it.0], h - multiset{it}, a, b)
  {
    var h' := h - multiset{it};
    if (dist[a] + 1, b) in h && b != it.1 {
      assert (dist[a] + 1, b) in h';
    }
  }

  lemma StepsOut(dist0: map<int, int>, cone: set<int>, dist: map<int, int>, last: int, id: int, b: int)
    requires Kept(dist0, cone, dist) && id in dist && dist[id] == last && Relaxed(dist0, id, b)
    requires b in cone && b in dist ==> dist[b] <= last
    ensures b in dist ==> Relaxed(dist, id, b)
  {
  }

  /** The nearest node waiting gets its distance. */
  lemma SettleOne(net: Network, pos: Position, sources: set<int>, dist0: map<int, int>, cone: set<int>,
                  dist: map<int, int>, h: Heap, last: int, it: (int, int))
    requires Settling(net, pos, sources, dist0, cone, dist, h, last) && it in h && it.1 !in dist
    requires forall x :: x in h ==> it.0 <= x.0
    requires dist0.Keys <= net.nodes.Keys && WasRelaxed(net, pos, dist0)
    ensures Offering(net, pos, sources, dist0, cone, dist[it.1 := it.0], h - multiset{it}, it.0, it.1,
      LinesAt(net, it.1))
  {
    hide Labelled, Offered, Feeds, Kept, Waiting, Relaxed;
    SettleLabelled(net, pos, sources, dist0, cone, dist, h, last, it);
    SettleOffers(net, pos, cone, dist, h, last, it);
    var id := it.1;
    var dist', h' := dist[id := it.0], h - multiset{it};
    forall a, b | a in dist' && Feeds(net, pos, a, b)
      ensures Waiting(dist', h', a, b)
        || (a == id && b !in dist' && exists e :: e in LinesAt(net, id) && Conducts(net, pos, e, a, b))
    {
      if a != id {
        StepsInto(dist, h, it, a, b);
      } else {
        var e := LineOf(net, pos, a, b);
        assert Relaxed(dist0, id, b);
        if b in dist' {
          assert b in cone ==> dist'[b] <= it.0;
          StepsOut(dist0, cone, dist', it.0, id, b);
          NowWaits(dist', h', id, b);
        }
      }
    }
  }

  lemma NowWaits(dist: map<int, int>, h: Heap, a: int, b: int)
    requires a in dist && Relaxed(dist, a, b)
    ensures Waiting(dist, h, a, b)
  {
  }

  lemma OfferEnds(net: Network, pos: Position, sources: set<int>, dist0: map<int, int>, cone: set<int>,
                  dist: map<int, int>, h: Heap, last: int, id: int, lines: set<int>)
    requires Offering(net, pos, sources, dist0, cone, dist, h, last, id, lines) && (lines == {} || id in pos.open)
    ensures Settling(net, pos, sources, dist0, cone, dist, h, last)
  {
    hide Labelled, Kept, Offers;
  }

  lemma OfferPast(net: Network, pos: Position, sources: set<int>, dist0: map<int, int>, cone: set<int>,
                  dist: map<int, int>, h: Heap, last: int, id: int, lines: set<int>, e: int, nb: int)
    requires Offering(net, pos, sources, dist0, cone, dist, h, last, id, lines)
    requires e in net.lines && net.lines[e].Other(id) == nb
    requires Conducts(net, pos, e, id, nb) ==> nb in dist || (last + 1, nb) in h
    ensures Offering(net, pos, sources, dist0, cone, dist, h, last, id, lines - {e})
  {
    hide Labelled, Kept, Offers;
    forall a, b | a in dist && Feeds(net, pos, a, b)
      ensures Waiting(dist, h, a, b)
        || (a == id && b !in dist && exists f :: f in lines - {e} && Conducts(net, pos, f, a, b))
    {
      if !Waiting(dist, h, a, b) {
        var f :| f in lines && Conducts(net, pos, f, a, b);
        assert f != e;
      }
    }
  }

  lemma OfferTo(net: Network, pos: Position, sources: set<int>, dist0: map<int, int>, cone: set<int>,
                dist: map<int, int>, h: Heap, last: int, id: int, lines: set<int>, nb: int)
    requires Offering(net, pos, sources, dist0, cone, dist, h, last, id, lines)
    requires nb in cone && Feeds(net, pos, id, nb)
    ensures Offering(net, pos, sources, dist0, cone, dist, h + multiset{(last + 1, nb)}, last, id, lines)
  {
    hide Labelled, Kept, Feeds, Conducts;
    assert Offered(net, pos, dist, last + 1, nb);
    var h' := h + multiset{(last + 1, nb)};
    forall a, b | a in dist && Feeds(net, pos, a, b)
      ensures Waiting(dist, h', a, b)
        || (a == id && b !in dist && exists e :: e in lines && Conducts(net, pos, e, a, b))
    {
      assert Waiting(dist, h, a, b) ==> Waiting(dist, h', a, b);
    }
  }

  lemma OfferFacts(net: Network, pos: Position, sources: set<int>, dist0: map<int, int>, cone: set<int>,
                   dist: map<int, int>, h: Heap, last: int, id: int, lines: set<int>, nb: int)
    requires Offering(net, pos, sources, dist0, cone, dist, h, last, id, lines)
    ensures id in dist && dist[id] == last && id in dist0
    ensures WasRelaxed(net, pos, dist0) && Feeds(net, pos, id, nb) && nb !in cone ==> nb in dist
  {
    hide Labelled, Offers, Feeds, Waiting;
    if WasRelaxed(net, pos, dist0) && Feeds(net, pos, id, nb) && nb !in cone {
      assert Relaxed(dist0, id, nb);
    }
  }

  /** Offers a distance to every neighbour in the cone that has none. */
  method OfferOn(net: Network, pos: Position, ghost sources: set<int>, ghost dist0: map<int, int>, cone: set<int>,
                 dist: map<int, int>, h0: Heap, ghost last: int, id: int) returns (h: Heap)
    requires net.Valid() && WasRelaxed(net, pos, dist0) && id !in pos.open
    requires Offering(net, pos, sources, dist0, cone, dist, h0, last, id, LinesAt(net, id))
    ensures Settling(net, pos, sources, dist0, cone, dist, h, last)
  {
    hide Offering, Settling, Feeds, WasRelaxed;
    h := h0;
    var lines := LinesAt(net, id);
    OfferFacts(net, pos, sources, dist0, cone, dist, h, last, id, lines, id);
    while lines != {}
      invariant lines <= LinesAt(net, id)
      invariant Offering(net, pos, sources, dist0, cone, dist, h, last, id, lines)
      decreases lines
    {
      var e := Pick(lines);
      var nb := net.lines[e].Other(id);
      PassableBothWays(net, pos, e, id, nb);
      if Conducts(net, pos, e, id, nb) { FeedsAlong(net, pos, e, id, nb); }
      OfferFacts(net, pos, sources, dist0, cone, dist, h, last, id, lines, nb);
      if Passable(net, pos, e, id, nb) && nb in cone && !Blocked(net, pos, nb) && nb !in dist {
        OfferTo(net, pos, sources, dist0, cone, dist, h, last, id, lines, nb);
        h := h + multiset{(dist[id] + 1, nb)};
      }
      OfferPast(net, pos, sources, dist0, cone, dist, h, last, id, lines, e, nb);
      lines := lines - {e};
    }
    OfferEnds(net, pos, sources, dist0, cone, dist, h, last, id, lines);
  }

  // ------------------------------------------------------------------ the first offers

  /** Every energised neighbour has made its offer to the nodes of the cone but those still to come. */
  ghost predicate Fringe(net: Network, pos: Position, cone: set<int>, left: map<int, int>, h: Heap, todo: set<int>) {
    && (forall x :: x in h ==> x.1 in cone && Offered(net, pos, left, x.0, x.1))
    && (forall a, b :: a in left && b in cone && b !in todo && Feeds(net, pos, a, b) ==> (left[a] + 1, b) in h)
  }

  /** Of node `id`, the neighbours along all but the given lines have made their offers. */
  ghost predicate FringeOf(net: Network, pos: Position, left: map<int, int>, h: Heap, id: int, lines: set<int>) {
    forall e, a :: Passable(net, pos, e, id, a) && e !in lines && a in left && a !in pos.open ==> (left[a] + 1, id) in h
  }

  lemma FringePast(net: Network, pos: Position, cone: set<int>, left: map<int, int>, h: Heap, todo: set<int>, id: int)
    requires Fringe(net, pos, cone, left, h, todo) && (Blocked(net, pos, id) || FringeOf(net, pos, left, h, id, {}))
    ensures Fringe(net, pos, cone, left, h, todo - {id})
  {
    hide Offered, Feeds;
    forall a, b | a in left && b in cone && b !in todo - {id} && Feeds(net, pos, a, b) ensures (left[a] + 1, b) in h {
      if b == id { var e := LineOf(net, pos, a, b); }
    }
  }

  lemma FringeMore(net: Network, pos: Position, cone: set<int>, left: map<int, int>, h: Heap, todo: set<int>, id: int,
                   nb: int)
    requires Fringe(net, pos, cone, left, h, todo) && id in cone && nb in left && Feeds(net, pos, nb, id)
    ensures Fringe(net, pos, cone, left, h + multiset{(left[nb] + 1, id)}, todo)
  {
    NowOffered(net, pos, left, nb, id);
    hide Feeds, Offered;
    var it := (left[nb] + 1, id);
    forall x | x in h + multiset{it} ensures x.1 in cone && Offered(net, pos, left, x.0, x.1) {
      if x != it { assert x in h; }
    }
  }

  lemma NowOffered(net: Network, pos: Position, left: map<int, int>, a: int, n: int)
    requires a in left && Feeds(net, pos, a, n)
    ensures Offered(net, pos, left, left[a] + 1, n)
  {
    hide Feeds;
  }

  lemma FringeOfMore(net: Network, pos: Position, left: map<int, int>, h: Heap, id: int, lines: set<int>, e: int,
                     nb: int)
    requires FringeOf(net, pos, left, h, id, lines) && Passable(net, pos, e, id, nb) && nb in left
    ensures FringeOf(net, pos, left, h + multiset{(left[nb] + 1, id)}, id, lines - {e})
  {
    assert forall x :: x in h ==> x in h + multiset{(left[nb] + 1, id)};
  }

  /** The offers of the neighbours outside the cone. */
  method FirstOffers(net: Network, pos: Position, cone: set<int>, left: map<int, int>) returns (h: Heap)
    requires net.Valid() && cone <= net.nodes.Keys && cone !! left.Keys
    ensures Fringe(net, pos, cone, left, h, {})
  {
    hide Fringe, FringeOf;
    h := multiset{};
    var todo := cone;
    FringeStarts(net, pos, cone, left);
    while todo != {}
      invariant todo <= cone && Fringe(net, pos, cone, left, h, todo)
      decreases todo
    {
      var id := Pick(todo);
      if !Blocked(net, pos, id) {
        var lines := LinesAt(net, id);
        FringeOfNone(net, pos, left, h, id);
        while lines != {}
          invariant lines <= LinesAt(net, id)
          invariant Fringe(net, pos, cone, left, h, todo) && FringeOf(net, pos, left, h, id, lines)
          decreases lines
        {
          var e := Pick(lines);
          var nb := net.lines[e].Other(id);
          if Passable(net, pos, e, id, nb) && nb !in cone && nb in left && nb !in pos.open {
            FeedsAlong(net, pos, e, nb, id);
            FringeMore(net, pos, cone, left, h, todo, id, nb);
            FringeOfMore(net, pos, left, h, id, lines, e, nb);
            h := h + multiset{(left[nb] + 1, id)};
          } else {
            FringeNot(net, pos, left, h, id, lines, e, nb);
          }
          lines := lines - {e};
        }
      }
      FringePast(net, pos, cone, left, h, todo, id);
      todo := todo - {id};
    }
  }

  lemma FringeStarts(net: Network, pos: Position, cone: set<int>, left: map<int, int>)
    ensures Fringe(net, pos, cone, left, multiset{}, cone)
  {
  }

  lemma FringeOfNone(net: Network, pos: Position, left: map<int, int>, h: Heap, id: int)
    ensures FringeOf(net, pos, left, h, id, LinesAt(net, id))
  {
  }

  lemma FringeNot(net: Network, pos: Position, left: map<int, int>, h: Heap, id: int, lines: set<int>, e: int, nb: int)
    requires FringeOf(net, pos, left, h, id, lines) && e in net.lines && net.lines[e].Other(id) == nb
    requires !(Passable(net, pos, e, id, nb) && nb in left && nb !in pos.open)
    ensures FringeOf(net, pos, left, h, id, lines - {e})
  {
  }

  lemma SettleStarts(net: Network, pos: Position, sources: set<int>, dist0: map<int, int>, roots: set<int>,
                     cone: set<int>, h: Heap)
    requires Opened(net, pos, sources, dist0, roots) && IsCone(net, pos, dist0, roots, cone)
    requires Fringe(net, pos, cone, dist0 - cone, h, {})
    ensures Settling(net, pos, sources, dist0, cone, dist0 - cone, h, 0)
  {
    hide Feeds, IsCone, Opened, Labelled, Fringe, WasRelaxed, Offers, Kept;
    OutsideIsLabelled(net, pos, sources, dist0, roots, cone);
    OpenedFacts(net, pos, sources, dist0, roots);
    ConeFacts(net, pos, dist0, roots, cone);
    KeptAtFirst(dist0, cone);
    FirstAreOffers(net, pos, sources, cone, dist0 - cone, h);
    forall a, b | a in dist0 - cone && Feeds(net, pos, a, b) ensures Waiting(dist0 - cone, h, a, b) {
      FirstWait(net, pos, dist0, cone, h, a, b);
    }
  }

  lemma KeptAtFirst(dist0: map<int, int>, cone: set<int>)
    requires cone <= dist0.Keys
    ensures Kept(dist0, cone, dist0 - cone)
  {
  }

  lemma FirstAreOffers(net: Network, pos: Position, sources: set<int>, cone: set<int>, left: map<int, int>, h: Heap)
    requires Labelled(net, pos, sources, left) && Fringe(net, pos, cone, left, h, {}) && cone !! left.Keys
    ensures Offers(net, pos, cone, left, h, 0)
  {
    hide Feeds, Blocked, Backed;
    forall x | x in h ensures x.1 in cone && x.0 >= 0 && Offered(net, pos, left, x.0, x.1) {
      var d, n: int := x.0, x.1;
      assert Offered(net, pos, left, d, n);
      var a :| a in left && left[a] + 1 == d && Feeds(net, pos, a, n);
    }
  }

  lemma FirstWait(net: Network, pos: Position, dist0: map<int, int>, cone: set<int>, h: Heap, a: int, b: int)
    requires WasRelaxed(net, pos, dist0) && Fringe(net, pos, cone, dist0 - cone, h, {})
    requires a in dist0 - cone && Feeds(net, pos, a, b)
    ensures Waiting(dist0 - cone, h, a, b)
  {
    hide Feeds, Offered;
    assert Relaxed(dist0, a, b);
  }

  lemma SettledAll(net: Network, pos: Position, sources: set<int>, dist0: map<int, int>, cone: set<int>,
                   dist: map<int, int>, last: int)
    requires Settling(net, pos, sources, dist0, cone, dist, multiset{}, last)
    ensures Exact(net, pos, sources, dist) && Kept(dist0, cone, dist)
  {
    hide Labelled, Feeds, Kept;
    forall a, b | a in dist && Feeds(net, pos, a, b) ensures Relaxed(dist, a, b) {
      assert Waiting(dist, multiset{}, a, b);
    }
  }

  lemma OpenedFacts(net: Network, pos: Position, sources: set<int>, dist: map<int, int>, roots: set<int>)
    requires Opened(net, pos, sources, dist, roots)
    ensures dist.Keys <= net.nodes.Keys && roots <= dist.Keys && WasRelaxed(net, pos, dist)
    ensures forall n :: n in dist ==> dist[n] >= 0
  {
    hide Feeds, Rooted, Blocked;
  }

  lemma SettleShrinks(net: Network, pos: Position, sources: set<int>, dist0: map<int, int>, cone: set<int>,
                      dist: map<int, int>, h: Heap, last: int, it: (int, int))
    requires Settling(net, pos, sources, dist0, cone, dist, h, last) && it in h
    ensures it.1 in cone
  {
    hide Labelled, Feeds, Kept, Waiting, Offered;
  }

  /** Forgets the cone of the roots and gives its nodes new distances, where they have any: the distances from the
      sources of the new position. Nothing outside the cone changes. */
  method ReseedCone(net: Network, pos: Position, ghost sources: set<int>, before: map<int, int>, roots: seq<int>)
    returns (dist: map<int, int>, touched: seq<int>)
    requires net.Valid() && Opened(net, pos, sources, before, Members(roots))
    ensures Exact(net, pos, sources, dist)
    ensures forall n :: n !in touched ==> (n in dist <==> n in before) && (n in dist ==> dist[n] == before[n])
    ensures forall n :: n in touched ==> n in before
    ensures dist.Keys <= before.Keys
  {
    hide Opened, IsCone, Fringe, Settling, Offering, WasRelaxed, Exact, Kept;
    OpenedFacts(net, pos, sources, before, Members(roots));
    if roots == [] {
      assert Members(roots) == {};
      NothingOpened(net, pos, sources, before);
      return before, [];
    }
    var cone;
    cone, touched := FindCone(net, pos, before, roots);
    ConeFacts(net, pos, before, Members(roots), cone);
    dist := before - cone;
    assert cone <= net.nodes.Keys;
    assert cone !! dist.Keys;
    var h := FirstOffers(net, pos, cone, dist);
    SettleStarts(net, pos, sources, before, Members(roots), cone, h);
    ghost var last := 0;
    while h != multiset{}
      invariant Settling(net, pos, sources, before, cone, dist, h, last)
      decreases cone - dist.Keys, |h|
    {
      var it, rest := PopMin(h);
      SettleShrinks(net, pos, sources, before, cone, dist, h, last, it);
      if it.1 in dist {
        SettleSkip(net, pos, sources, before, cone, dist, h, last, it);
        h, last := rest, it.0;
        continue;
      }
      SettleOne(net, pos, sources, before, cone, dist, h, last, it);
      assert it.1 in cone - dist.Keys;
      dist := dist[it.1 := it.0];
      h, last := rest, it.0;
      if it.1 in pos.open {
        OfferEnds(net, pos, sources, before, cone, dist, h, last, it.1, LinesAt(net, it.1));
        continue;
      }
      h := OfferOn(net, pos, sources, before, cone, dist, h, last, it.1);
    }
    SettledAll(net, pos, sources, before, cone, dist, last);
    KeptFacts(before, cone, dist);
  }

  lemma ConeFacts(net: Network, pos: Position, dist: map<int, int>, roots: set<int>, cone: set<int>)
    requires IsCone(net, pos, dist, roots, cone)
    ensures cone <= dist.Keys && (dist - cone).Keys == dist.Keys - cone && cone !! (dist - cone).Keys
  {
  }

  lemma KeptFacts(dist0: map<int, int>, cone: set<int>, dist: map<int, int>)
    requires Kept(dist0, cone, dist)
    ensures dist.Keys <= dist0.Keys && cone <= dist0.Keys
    ensures forall n :: n !in cone ==> (n in dist <==> n in dist0) && (n in dist ==> dist[n] == dist0[n])
  {
    forall n | n !in cone ensures (n in dist <==> n in dist0) && (n in dist ==> dist[n] == dist0[n]) {
      if n in dist { assert n in dist0; }
    }
  }

  lemma NothingOpened(net: Network, pos: Position, sources: set<int>, dist: map<int, int>)
    requires Opened(net, pos, sources, dist, {})
    ensures Exact(net, pos, sources, dist)
  {
    hide Feeds, Blocked;
    forall x | x in dist && x !in sources ensures Backed(net, pos, dist, x) && dist[x] > 0 {
      assert Rooted(net, pos, dist, {}, x);
      var p :| p in dist && dist[p] + 1 == dist[x] && StillLeads(net, pos, {}, p, x);
    }
  }
}
