/** The grouped network as the asset hierarchy sees it, and the search for the nearest node of a type. */
module AssetGraph {
  import opened Listings

  datatype NodeType = GIType | TrafoGIType | GDType | TrafoType | RakType | OtherType

  /** A node with the group ids assigned to it (0 for none), the customers and load it stands for. */
  datatype Node = Node(typ: NodeType, sink: bool, energized: bool, feeder: int, gd: int, route: int,
                       customers: nat, load: nat)

  datatype Edge = Edge(from: int, to: int) {
    function Other(n: int): int {
      if from == n then to else from
    }
  }

  /** A feeder with the transformer and the substation it comes from, 0 for none. */
  datatype Feeder = Feeder(gi: int, trafoGI: int)

  datatype Graph = Graph(nodes: map<int, Node>, edges: map<int, Edge>, adj: map<int, seq<int>>,
                         feeders: map<int, Feeder>)

  /** Edges listed at a node exist and end in nodes; 0 is no id. */
  ghost predicate WellFormed(g: Graph) {
    && 0 !in g.nodes && 0 !in g.feeders
    && (forall n, e :: n in g.adj && e in g.adj[n] ==> e in g.edges)
    && (forall e :: e in g.edges ==> g.edges[e].from in g.nodes && g.edges[e].to in g.nodes)
  }

  function At(m: map<int, int>, k: int): int {
    if k in m then m[k] else 0
  }

  function EdgesAt(g: Graph, n: int): seq<int> {
    if n in g.adj then g.adj[n] else []
  }

  predicate Neighbours(g: Graph, a: int, b: int) {
    exists e :: e in EdgesAt(g, a) && e in g.edges && g.edges[e].Other(a) == b
  }

  /** The nodes at most `d` hops away. */
  ghost function Ball(g: Graph, id: int, d: nat): (ball: set<int>)
    ensures id in ball
  {
    if d == 0 then {id}
    else Ball(g, id, d - 1) + set n | n in g.nodes && exists m :: m in Ball(g, id, d - 1) && Neighbours(g, m, n)
  }

  /** One hop further: the nodes already there, and the other ends of the edges listed at them. */
  lemma {:induction false} BallStep(g: Graph, id: int, d: nat, n: int)
    ensures n in Ball(g, id, d + 1) <==>
      || n in Ball(g, id, d)
      || (n in g.nodes && exists m, e ::
            && m in Ball(g, id, d) && m in g.adj && e in g.adj[m] && e in g.edges
            && (g.edges[e] == Edge(m, n) || (g.edges[e].to == m != g.edges[e].from == n)
                || (g.edges[e].from != m && g.edges[e].from == n)))
  {
    forall m ensures Neighbours(g, m, n) <==>
      exists e :: m in g.adj && e in g.adj[m] && e in g.edges && g.edges[e].Other(m) == n {
    }
  }

  lemma {:induction false} BallGrows(g: Graph, id: int, c: nat, d: nat)
    requires c <= d
    ensures Ball(g, id, c) <= Ball(g, id, d)
  {
    if c < d { BallGrows(g, id, c, d - 1); }
  }

  predicate HasType(g: Graph, n: int, typ: NodeType) {
    n in g.nodes && g.nodes[n].typ == typ
  }

  /** No other node of the type lies within `d` hops. */
  ghost predicate NoneWithin(g: Graph, id: int, typ: NodeType, d: nat) {
    forall n :: n in Ball(g, id, d) && n != id ==> !HasType(g, n, typ)
  }

  /** `r` is another node of the type, as near as there is one within `hops`; 0 if there is none. */
  ghost predicate IsNearest(g: Graph, id: int, typ: NodeType, hops: nat, r: int) {
    if r == 0 then NoneWithin(g, id, typ, hops)
    else
      r != id && HasType(g, r, typ)
      && exists d: nat :: 1 <= d <= hops && r in Ball(g, id, d) && NoneWithin(g, id, typ, d - 1)
  }

  /** Every neighbour of a node in the ball that is not on the front has been seen. */
  ghost predicate Explored(g: Graph, ball: set<int>, rest: set<int>, seen: set<int>) {
    forall m, n :: m in ball && m !in rest && Neighbours(g, m, n) ==> n in seen
  }

  /** A search in widening circles. */
  method NeighbourOfType(g: Graph, id: int, typ: NodeType, hops: nat) returns (r: int)
    requires WellFormed(g) && id in g.nodes
    ensures IsNearest(g, id, typ, hops, r)
  {
    hide WellFormed, Neighbours, HasType;
    var front, seen := [id], {id};
    var h := 0;
    while h < hops
      invariant h <= hops && seen == Ball(g, id, h) && NoneWithin(g, id, typ, h)
      invariant Explored(g, seen, Members(front), seen) && Members(front) <= seen
    {
      var found;
      found, front, seen := Widen(g, id, typ, front, seen, h);
      if found != 0 { return found; }
      h := h + 1;
    }
    return 0;
  }

  /** One circle: stops at the first node of the type, or sees the whole next circle. */
  method Widen(g: Graph, id: int, typ: NodeType, front: seq<int>, seen0: set<int>, ghost h: nat)
    returns (found: int, next: seq<int>, seen: set<int>)
    requires WellFormed(g) && seen0 == Ball(g, id, h) && NoneWithin(g, id, typ, h)
    requires Explored(g, seen0, Members(front), seen0) && Members(front) <= seen0
    ensures found != 0 ==> found != id && HasType(g, found, typ) && found in Ball(g, id, h + 1)
    ensures found == 0 ==>
      && seen == Ball(g, id, h + 1) && NoneWithin(g, id, typ, h + 1)
      && Explored(g, seen, Members(next), seen) && Members(next) <= seen
  {
    next, seen := [], seen0;
    hide Ball, NoneWithin, Explored, HasType, WellFormed, Neighbours;
    BallHasId(g, id, h);
    for i := 0 to |front|
      invariant seen0 <= seen && seen == seen0 + Members(next)
      invariant Fringe(g, id, typ, seen0, seen)
      invariant forall k, n :: 0 <= k < i && Neighbours(g, front[k], n) ==> n in seen
    {
      var cur := front[i];
      var es := EdgesAt(g, cur);
      for j := 0 to |es|
        invariant seen0 <= seen && seen == seen0 + Members(next)
        invariant Fringe(g, id, typ, seen0, seen)
        invariant forall k, n :: 0 <= k < i && Neighbours(g, front[k], n) ==> n in seen
        invariant forall k :: 0 <= k < j ==> OtherEnd(g, es[k], cur) in seen
      {
        assert es[j] in EdgesAt(g, cur);
        EdgeEnds(g, cur, es[j]);
        var nb := g.edges[es[j]].Other(cur);
        if nb !in seen {
          if HasType(g, nb, typ) {
            FoundInNextBall(g, id, h, cur, nb);
            assert cur in Members(front);
            return nb, next, seen;
          }
          assert cur in Members(front);
          FringeGrows(g, id, typ, seen0, seen, cur, nb);
          next, seen := next + [nb], seen + {nb};
        }
      }
      SeenAround(g, cur, seen);
    }
    found := 0;
    AllAround(g, front, seen0, seen);
    FringeIsBall(g, id, typ, h, seen0, seen, Members(front));
    assert Explored(g, seen, Members(next), seen) by {
      ExploredNext(g, seen0, Members(front), seen, Members(next));
    }
  }

  function OtherEnd(g: Graph, e: int, n: int): int {
    if e in g.edges then g.edges[e].Other(n) else n
  }

  lemma BallHasId(g: Graph, id: int, h: nat)
    ensures id in Ball(g, id, h)
  {
  }

  /** What has been seen beyond the circle is next to it and not of the type. */
  ghost predicate Fringe(g: Graph, id: int, typ: NodeType, seen0: set<int>, seen: set<int>) {
    id in seen0 && forall n :: n in seen && n !in seen0 ==>
      n in g.nodes && !HasType(g, n, typ) && exists m :: m in seen0 && Neighbours(g, m, n)
  }

  lemma EdgeEnds(g: Graph, n: int, e: int)
    requires WellFormed(g) && e in EdgesAt(g, n)
    ensures e in g.edges && g.edges[e].Other(n) in g.nodes && Neighbours(g, n, g.edges[e].Other(n))
    ensures g.edges[e].Other(n) != 0
  {
  }

  lemma FoundInNextBall(g: Graph, id: int, h: nat, cur: int, nb: int)
    requires cur in Ball(g, id, h) && Neighbours(g, cur, nb) && nb in g.nodes
    ensures nb in Ball(g, id, h + 1)
  {
    hide Neighbours;
  }

  lemma FringeGrows(g: Graph, id: int, typ: NodeType, seen0: set<int>, seen: set<int>, cur: int, nb: int)
    requires Fringe(g, id, typ, seen0, seen) && cur in seen0 && Neighbours(g, cur, nb)
    requires nb in g.nodes && !HasType(g, nb, typ)
    ensures Fringe(g, id, typ, seen0, seen + {nb})
  {
    hide Neighbours, HasType;
  }

  lemma SeenAround(g: Graph, cur: int, seen: set<int>)
    requires forall k :: 0 <= k < |EdgesAt(g, cur)| ==> OtherEnd(g, EdgesAt(g, cur)[k], cur) in seen
    ensures forall n :: Neighbours(g, cur, n) ==> n in seen
  {
    forall n | Neighbours(g, cur, n) ensures n in seen {
      var e :| e in EdgesAt(g, cur) && e in g.edges && g.edges[e].Other(cur) == n;
      var k :| 0 <= k < |EdgesAt(g, cur)| && EdgesAt(g, cur)[k] == e;
      assert OtherEnd(g, EdgesAt(g, cur)[k], cur) == n;
    }
  }

  lemma AllAround(g: Graph, front: seq<int>, seen0: set<int>, seen: set<int>)
    requires Explored(g, seen0, Members(front), seen0) && seen0 <= seen
    requires forall k, n :: 0 <= k < |front| && Neighbours(g, front[k], n) ==> n in seen
    ensures forall m, n :: m in seen0 && Neighbours(g, m, n) ==> n in seen
  {
    hide Neighbours;
    forall m, n | m in seen0 && Neighbours(g, m, n) ensures n in seen {
      if m in front {
        var k :| 0 <= k < |front| && front[k] == m;
      }
    }
  }

  lemma FringeIsBall(g: Graph, id: int, typ: NodeType, h: nat, seen0: set<int>, seen: set<int>, front: set<int>)
    requires seen0 == Ball(g, id, h) && NoneWithin(g, id, typ, h) && Fringe(g, id, typ, seen0, seen) && seen0 <= seen
    requires forall m, n :: m in seen0 && Neighbours(g, m, n) ==> n in seen
    ensures seen == Ball(g, id, h + 1) && NoneWithin(g, id, typ, h + 1)
  {
    hide Neighbours, HasType;
    var around := set n | n in g.nodes && exists m :: m in Ball(g, id, h) && Neighbours(g, m, n);
    assert Ball(g, id, h + 1) == seen0 + around;
    forall n ensures n in seen <==> n in seen0 + around {
      if n in seen && n !in seen0 {
        var m :| m in seen0 && Neighbours(g, m, n);
        assert n in around;
      }
    }
  }

  lemma ExploredNext(g: Graph, seen0: set<int>, front: set<int>, seen: set<int>, next: set<int>)
    requires seen == seen0 + next && forall m, n :: m in seen0 && Neighbours(g, m, n) ==> n in seen
    ensures Explored(g, seen, next, seen)
  {
    hide Neighbours;
  }
}
