/** Hop distances from the sources: what they mean, and the breadth-first search that computes them in full. */
module Distances {
  import opened Listings
  import opened Network

  ghost function Seeds(net: Network, pos: Position): set<int> {
    set n | n in net.nodes && Seed(net, pos, n)
  }

  /** A neighbour one hop nearer feeds `n`. */
  ghost predicate Backed(net: Network, pos: Position, dist: map<int, int>, n: int)
    requires n in dist
  {
    exists a :: a in dist && dist[a] + 1 == dist[n] && Feeds(net, pos, a, n)
  }

  /** `b` is at most one hop further than `a`. */
  predicate Relaxed(dist: map<int, int>, a: int, b: int)
    requires a in dist
  {
    b in dist && dist[b] <= dist[a] + 1
  }

  /** Distances at which everything but the given sources is one hop from a nearer neighbour that feeds it. */
  ghost predicate Labelled(net: Network, pos: Position, sources: set<int>, dist: map<int, int>) {
    && sources <= dist.Keys <= net.nodes.Keys
    && (forall n :: n in dist ==> dist[n] >= 0 && (dist[n] == 0 <==> n in sources))
    && (forall n :: n in sources ==> !Blocked(net, pos, n))
    && (forall n :: n in dist && n !in sources ==> Backed(net, pos, dist, n))
  }

  /** The hop distances from the given sources. */
  ghost predicate Exact(net: Network, pos: Position, sources: set<int>, dist: map<int, int>) {
    && Labelled(net, pos, sources, dist)
    && forall a, b :: a in dist && Feeds(net, pos, a, b) ==> Relaxed(dist, a, b)
  }

  /** Power can pass along the line between two nodes, whatever they let through themselves. */
  predicate Passable(net: Network, pos: Position, e: int, a: int, b: int) {
    && e in net.lines && net.lines[e].Touches(a) && net.lines[e].Other(a) == b
    && e !in pos.cut && (a, e) !in pos.ways && (b, e) !in pos.ways
  }

  function LinesAt(net: Network, n: int): set<int> {
    set e | e in net.lines && net.lines[e].Touches(n)
  }

  lemma PassableBothWays(net: Network, pos: Position, e: int, a: int, b: int)
    ensures Passable(net, pos, e, a, b) ==> Passable(net, pos, e, b, a) && e in LinesAt(net, a) && e in LinesAt(net, b)
    ensures Passable(net, pos, e, a, b) && !Blocked(net, pos, b) <==> Conducts(net, pos, e, a, b)
  {
  }

  // ------------------------------------------------------------------ what the distances mean

  ghost predicate IsWay(net: Network, pos: Position, sources: set<int>, path: seq<int>, n: int) {
    && |path| > 0 && path[0] in sources && path[|path| - 1] == n
    && forall i :: 0 <= i < |path| - 1 ==> Feeds(net, pos, path[i], path[i + 1])
  }

  lemma OneBack(net: Network, pos: Position, sources: set<int>, dist: map<int, int>, n: int) returns (a: int)
    requires Labelled(net, pos, sources, dist) && n in dist
    ensures dist[n] >= 0
    ensures n !in sources ==> a in dist && dist[a] + 1 == dist[n] && Feeds(net, pos, a, n)
    ensures n in sources ==> dist[n] == 0
  {
    hide Feeds, Blocked;
    a := n;
    if n !in sources {
      assert Backed(net, pos, dist, n);
      a :| a in dist && dist[a] + 1 == dist[n] && Feeds(net, pos, a, n);
    }
  }

  lemma {:induction false} WayBack(net: Network, pos: Position, sources: set<int>, dist: map<int, int>, n: int)
    returns (path: seq<int>)
    requires Labelled(net, pos, sources, dist) && n in dist
    ensures IsWay(net, pos, sources, path, n) && |path| == dist[n] + 1
    decreases if dist[n] < 0 then 0 else dist[n]
  {
    hide Feeds, Labelled;
    var a := OneBack(net, pos, sources, dist, n);
    if n in sources {
      path := [n];
    } else {
      var a' := OneBack(net, pos, sources, dist, a);
      var init := WayBack(net, pos, sources, dist, a);
      path := init + [n];
    }
  }

  lemma {:induction false} NoShorterWay(net: Network, pos: Position, sources: set<int>, dist: map<int, int>,
                                        path: seq<int>, n: int)
    requires Exact(net, pos, sources, dist) && IsWay(net, pos, sources, path, n)
    ensures n in dist && dist[n] < |path|
    decreases |path|
  {
    hide Feeds, Blocked, Backed;
    if |path| > 1 {
      var a := path[|path| - 2];
      assert IsWay(net, pos, sources, path[..|path| - 1], a);
      NoShorterWay(net, pos, sources, dist, path[..|path| - 1], a);
      assert Feeds(net, pos, a, n);
    }
  }

  /** The distances from given sources are unique. */
  lemma {:induction false} ExactIsUnique(net: Network, pos: Position, sources: set<int>, d: map<int, int>,
                                         e: map<int, int>)
    requires Exact(net, pos, sources, d) && Exact(net, pos, sources, e)
    ensures d == e
  {
    hide Feeds, Exact, Labelled;
    forall n ensures (n in d <==> n in e) && (n in d ==> d[n] == e[n]) {
      NoFurther(net, pos, sources, d, e, n);
      NoFurther(net, pos, sources, e, d, n);
    }
  }

  lemma {:induction false} NoFurther(net: Network, pos: Position, sources: set<int>, d: map<int, int>, e: map<int, int>,
                                     n: int)
    requires Exact(net, pos, sources, d) && Exact(net, pos, sources, e)
    ensures n in d ==> n in e && e[n] <= d[n]
  {
    hide Feeds, Blocked, Backed;
    if n in d {
      var path := WayBack(net, pos, sources, d, n);
      NoShorterWay(net, pos, sources, e, path, n);
    }
  }

  /** With the sources in service: the nodes with a distance are the energised ones, and it is the number of hops of a
      shortest way to a source. */
  lemma {:induction false} ExactMeansHops(net: Network, pos: Position, dist: map<int, int>)
    requires Exact(net, pos, Seeds(net, pos), dist)
    ensures dist.Keys == Live(net, pos)
    ensures forall n, path :: n in dist && IsPath(net, pos, path, n) ==> dist[n] < |path|
    ensures forall n :: n in dist ==> exists path :: IsPath(net, pos, path, n) && |path| == dist[n] + 1
  {
    hide Feeds, Blocked, Backed, Exact, Labelled;
    var sources := Seeds(net, pos);
    forall n, path | IsPath(net, pos, path, n) ensures n in dist && dist[n] < |path| {
      assert IsWay(net, pos, sources, path, n);
      NoShorterWay(net, pos, sources, dist, path, n);
    }
    forall n | n in dist ensures n in net.nodes && exists path :: IsPath(net, pos, path, n) && |path| == dist[n] + 1 {
      KeysInNetwork(net, pos, sources, dist);
      var path := WayBackOf(net, pos, sources, dist, n);
      assert IsPath(net, pos, path, n);
    }
  }

  lemma KeysInNetwork(net: Network, pos: Position, sources: set<int>, dist: map<int, int>)
    requires Exact(net, pos, sources, dist)
    ensures dist.Keys <= net.nodes.Keys
  {
  }

  lemma WayBackOf(net: Network, pos: Position, sources: set<int>, dist: map<int, int>, n: int) returns (path: seq<int>)
    requires Exact(net, pos, sources, dist) && n in dist
    ensures IsWay(net, pos, sources, path, n) && |path| == dist[n] + 1
  {
    hide Feeds, Blocked, Backed;
    path := WayBack(net, pos, sources, dist, n);
  }

  // ------------------------------------------------------------------ the search in full

  /** What is known of the search at any time: the queue lists the nodes reached in order of distance, those before
      `head` have reached all they feed, and nothing reached is more than one hop further than the node at `head`. */
  ghost predicate Searching(net: Network, pos: Position, queue: seq<int>, dist: map<int, int>, head: nat) {
    && Lists(queue, dist.Keys) && head <= |queue|
    && Labelled(net, pos, Seeds(net, pos), dist)
    && (forall i, j :: 0 <= i < j < |queue| ==> dist[queue[i]] <= dist[queue[j]])
    && (forall i :: 0 <= i < |queue| && head < |queue| ==> dist[queue[i]] <= dist[queue[head]] + 1)
    && (forall i, b :: 0 <= i < head && Feeds(net, pos, queue[i], b) ==> Relaxed(dist, queue[i], b))
  }

  lemma LabelledNext(net: Network, pos: Position, sources: set<int>, dist: map<int, int>, cur: int, nb: int)
    requires Labelled(net, pos, sources, dist) && cur in dist && Feeds(net, pos, cur, nb)
    requires nb in net.nodes && nb !in dist
    ensures Labelled(net, pos, sources, dist[nb := dist[cur] + 1])
  {
    hide Feeds, Blocked;
    var d := dist[nb := dist[cur] + 1];
    forall n | n in d && n !in sources ensures Backed(net, pos, d, n) {
      if n == nb {
        assert d[cur] + 1 == d[n];
      } else {
        var a :| a in dist && dist[a] + 1 == dist[n] && Feeds(net, pos, a, n);
        assert d[a] + 1 == d[n];
      }
    }
  }

  lemma ReachOne(net: Network, pos: Position, queue: seq<int>, dist: map<int, int>, head: nat, nb: int)
    requires Searching(net, pos, queue, dist, head) && head < |queue| && Feeds(net, pos, queue[head], nb)
    requires nb in net.nodes && nb !in dist
    ensures Searching(net, pos, queue + [nb], dist[nb := dist[queue[head]] + 1], head)
  {
    hide Feeds, Labelled, Seeds;
    var cur := queue[head];
    assert cur in queue;
    LabelledNext(net, pos, Seeds(net, pos), dist, cur, nb);
    ListsAppend(queue, dist.Keys, nb);
    var q, d := queue + [nb], dist[nb := dist[cur] + 1];
    assert d.Keys == dist.Keys + {nb};
    forall i | 0 <= i < |q| ensures q[i] in d && (i < |queue| ==> q[i] == queue[i] && d[q[i]] == dist[queue[i]]) {
      assert i < |queue| ==> queue[i] in queue;
    }
    forall i, b | 0 <= i < head && Feeds(net, pos, q[i], b) ensures Relaxed(d, q[i], b) {
      assert Relaxed(dist, queue[i], b);
    }
  }

  lemma Advance(net: Network, pos: Position, queue: seq<int>, dist: map<int, int>, head: nat)
    requires Searching(net, pos, queue, dist, head) && head < |queue| && queue[head] in dist
    requires forall b :: Feeds(net, pos, queue[head], b) ==> Relaxed(dist, queue[head], b)
    ensures Searching(net, pos, queue, dist, head + 1)
  {
    hide Feeds, Labelled, Seeds;
    assert forall i :: 0 <= i < |queue| ==> queue[i] in queue;
  }

  lemma ReachedIsNear(net: Network, pos: Position, queue: seq<int>, dist: map<int, int>, head: nat, nb: int)
    requires Searching(net, pos, queue, dist, head) && head < |queue| && nb in dist
    ensures queue[head] in dist && Relaxed(dist, queue[head], nb)
    ensures queue[head] in pos.open ==> dist[queue[head]] != 0
  {
    hide Feeds;
    assert queue[head] in queue && nb in queue;
  }

  /** Reaches everything that the queue's node `head` feeds. */
  method Visit(net: Network, pos: Position, queue0: seq<int>, dist0: map<int, int>, head: nat)
    returns (queue: seq<int>, dist: map<int, int>)
    requires net.Valid() && Searching(net, pos, queue0, dist0, head) && head < |queue0|
    ensures Searching(net, pos, queue, dist, head + 1) && queue0 <= queue
  {
    hide Searching, Labelled, Seeds;
    var cur := queue0[head];
    queue, dist := queue0, dist0;
    HeadIsReached(net, pos, queue, dist, head);
    ReachedIsNear(net, pos, queue, dist, head, cur);
    var lines := if cur in pos.open && dist[cur] != 0 then {} else set e | e in net.lines && net.lines[e].Touches(cur);
    while lines != {}
      invariant Searching(net, pos, queue, dist, head) && queue0 <= queue && cur in dist
      invariant lines <= net.lines.Keys && (lines != {} ==> cur !in pos.open)
      invariant cur !in pos.open ==> forall e, b :: Conducts(net, pos, e, cur, b) ==> e in lines || b in dist
      decreases lines
    {
      var e := Pick(lines);
      lines := lines - {e};
      var nb := net.lines[e].Other(cur);
      if Conducts(net, pos, e, cur, nb) && nb !in dist {
        assert Feeds(net, pos, cur, nb);
        ReachOne(net, pos, queue, dist, head, nb);
        dist := dist[nb := dist[cur] + 1];
        queue := queue + [nb];
      }
    }
    assert queue[head] == cur;
    forall b | Feeds(net, pos, cur, b) ensures Relaxed(dist, cur, b) {
      var e :| Conducts(net, pos, e, cur, b);
      ReachedIsNear(net, pos, queue, dist, head, b);
    }
    Advance(net, pos, queue, dist, head);
  }

  lemma HeadIsReached(net: Network, pos: Position, queue: seq<int>, dist: map<int, int>, head: nat)
    requires Searching(net, pos, queue, dist, head)
    ensures head < |queue| ==> queue[head] in dist
    ensures head <= |queue| <= |net.nodes.Keys|
  {
    hide Feeds, Backed, Seeds;
    if head < |queue| { assert queue[head] in queue; }
    QueueFits(queue, net.nodes.Keys);
  }

  lemma SearchedAll(net: Network, pos: Position, queue: seq<int>, dist: map<int, int>)
    requires Searching(net, pos, queue, dist, |queue|)
    ensures Exact(net, pos, Seeds(net, pos), dist)
  {
    hide Feeds, Labelled, Seeds;
    forall a, b | a in dist && Feeds(net, pos, a, b) ensures Relaxed(dist, a, b) {
      assert a in queue;
    }
  }

  lemma SearchStarts(net: Network, pos: Position, queue: seq<int>, dist: map<int, int>)
    requires dist == (map n | n in Seeds(net, pos) :: 0) && Lists(queue, Seeds(net, pos))
    ensures Searching(net, pos, queue, dist, 0)
  {
    assert dist.Keys == Seeds(net, pos);
    assert forall i :: 0 <= i < |queue| ==> queue[i] in queue;
  }

  /** Breadth-first search from all sources in service. */
  method Bfs(net: Network, pos: Position) returns (dist: map<int, int>)
    requires net.Valid()
    ensures Exact(net, pos, Seeds(net, pos), dist) && dist.Keys == Live(net, pos)
  {
    hide Searching, Exact, Live;
    var seeds := set n | n in net.nodes && Seed(net, pos, n);
    assert seeds == Seeds(net, pos);
    var queue := ListSet(seeds);
    dist := map n | n in seeds :: 0;
    SearchStarts(net, pos, queue, dist);
    var head := 0;
    HeadIsReached(net, pos, queue, dist, head);
    while head < |queue|
      invariant Searching(net, pos, queue, dist, head) && head <= |queue| <= |net.nodes.Keys|
      decreases |net.nodes.Keys| - head
    {
      queue, dist := Visit(net, pos, queue, dist, head);
      head := head + 1;
      HeadIsReached(net, pos, queue, dist, head);
    }
    SearchedAll(net, pos, queue, dist);
    ExactMeansHops(net, pos, dist);
  }

  lemma {:induction false} QueueFits(s: seq<int>, all: set<int>)
    requires Distinct(s) && forall x :: x in s ==> x in all
    ensures |s| <= |all|
    decreases |s|
  {
    if s != [] {
      var x := s[|s| - 1];
      assert x in s;
      QueueFits(s[..|s| - 1], all - {x});
    }
  }
}
