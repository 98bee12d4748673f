/** The index behind the asset hierarchy, built in one pass over feeders, nodes, routes and customers. The named lists
    and maps of lists of the original are one map here, by what they list and under what. */
module AssetIndex {
  import opened Listings
  import opened AssetGraph
  import opened AssetForest

  /** A list of the index: all assets of a kind, or those of a kind under one parent. */
  datatype Slot = All(kind: Kind) | Under(parent: Ref, kind: Kind)

  type SlotLists = map<Slot, seq<int>>

  function ListAt(lists: SlotLists, s: Slot): seq<int> {
    if s in lists then lists[s] else []
  }

  function Filed(lists: SlotLists, s: Slot, v: int): SlotLists {
    lists[s := ListAt(lists, s) + [v]]
  }

  ghost predicate AllDistinct(lists: SlotLists) {
    forall s :: s in lists ==> Distinct(lists[s])
  }

  /** Substations hang under the root without a list of their own. */
  predicate Placed(g: Graph, x: Facts, s: Slot, v: int) {
    match s
    case All(_) => true
    case Under(p, kind) => kind != GI && Parent(g, x, Ref(kind, v)) == Some(p)
  }

  /** The assets filed so far, by kind. */
  type Known = map<Kind, set<int>>

  function KnownOf(known: Known, kind: Kind): set<int> {
    if kind in known then known[kind] else {}
  }

  function Knowing(known: Known, kind: Kind, v: int): Known {
    known[kind := KnownOf(known, kind) + {v}]
  }

  /** The lists hold the known assets, each in the list of its kind and in that of its parent, and nothing else. */
  ghost predicate Holds(g: Graph, x: Facts, lists: SlotLists, known: Known) {
    && AllDistinct(lists)
    && forall s, v :: v in ListAt(lists, s) <==> v in KnownOf(known, s.kind) && Placed(g, x, s, v)
  }

  /** Filing an asset: in the list of its kind, and in that of its parent if it has one. */
  function Placing(g: Graph, x: Facts, lists: SlotLists, kind: Kind, v: int): SlotLists {
    var all, p := Filed(lists, All(kind), v), Parent(g, x, Ref(kind, v));
    if p.Some? && kind != GI then Filed(all, Under(p.value, kind), v) else all
  }

  lemma FiledHas(lists: SlotLists, s: Slot, v: int)
    requires AllDistinct(lists) && v !in ListAt(lists, s)
    ensures AllDistinct(Filed(lists, s, v))
    ensures forall t :: ListAt(Filed(lists, s, v), t) == if t == s then ListAt(lists, s) + [v] else ListAt(lists, t)
  {
  }

  lemma PlacingHolds(g: Graph, x: Facts, lists: SlotLists, known: Known, kind: Kind, v: int)
    requires Holds(g, x, lists, known) && v !in KnownOf(known, kind)
    ensures Holds(g, x, Placing(g, x, lists, kind, v), Knowing(known, kind, v))
  {
    hide Parent, AllDistinct, Filed, ListAt, Knowing;
    var p := Parent(g, x, Ref(kind, v));
    var all := Filed(lists, All(kind), v);
    FiledHas(lists, All(kind), v);
    var lists' := Placing(g, x, lists, kind, v);
    if p.Some? && kind != GI { FiledHas(all, Under(p.value, kind), v); }
    KnowingHas(known, kind, v);
    forall s: Slot, u: int ensures u in ListAt(lists', s)
      <==> u in KnownOf(Knowing(known, kind, v), s.kind) && Placed(g, x, s, u) {
      assert s.kind == kind && u == v && Placed(g, x, s, u)
        <==> (s == All(kind) || (p.Some? && kind != GI && s == Under(p.value, kind))) && u == v;
    }
  }

  lemma KnowingHas(known: Known, kind: Kind, v: int)
    ensures forall k, u :: u in KnownOf(Knowing(known, kind, v), k) <==> u in KnownOf(known, k) || (k == kind && u == v)
  {
  }

  /** Finding out more does not move what is filed already. */
  lemma FactsMayGrow(g: Graph, x: Facts, x': Facts, lists: SlotLists, known: Known)
    requires Holds(g, x, lists, known)
    requires forall kind, v :: v in KnownOf(known, kind) ==> Parent(g, x', Ref(kind, v)) == Parent(g, x, Ref(kind, v))
    ensures Holds(g, x', lists, known)
  {
    hide Parent, AllDistinct, ListAt, KnownOf;
    forall s: Slot, v: int ensures v in KnownOf(known, s.kind) && Placed(g, x', s, v)
      <==> v in KnownOf(known, s.kind) && Placed(g, x, s, v) {
    }
  }

  // ------------------------------------------------------------------ customers and load

  datatype Totals = Totals(customers: nat, customersOff: nat, load: nat, loadOff: nat)

  const NOTHING := Totals(0, 0, 0, 0)

  datatype Measure = Customers | CustomersOff | Load | LoadOff

  function Amount(t: Totals, m: Measure): nat {
    match m
    case Customers => t.customers
    case CustomersOff => t.customersOff
    case Load => t.load
    case LoadOff => t.loadOff
  }

  /** What one customer node adds to whatever it counts for. */
  function Weight(n: Node, m: Measure): nat {
    match m
    case Customers => n.customers
    case CustomersOff => if n.energized then 0 else n.customers
    case Load => n.load
    case LoadOff => if n.energized then 0 else n.load
  }

  /** A customer counts in full, and once more as off while it is without power; each figure is kept by itself. */
  lemma MeasuresAre(n: Node, t: Totals)
    ensures Weight(n, Customers) == n.customers && Weight(n, Load) == n.load
    ensures n.energized ==> Weight(n, CustomersOff) == 0 && Weight(n, LoadOff) == 0
    ensures !n.energized ==> Weight(n, CustomersOff) == n.customers && Weight(n, LoadOff) == n.load
    ensures t == Totals(Amount(t, Customers), Amount(t, CustomersOff), Amount(t, Load), Amount(t, LoadOff))
  {
  }

  function TotalsAt(stat: map<int, Totals>, id: int): Totals {
    if id in stat then stat[id] else NOTHING
  }

  function Added(stat: map<int, Totals>, id: int, n: Node): map<int, Totals> {
    if id == 0 then stat
    else
      var a := TotalsAt(stat, id);
      stat[id := Totals(a.customers + n.customers, a.customersOff + (if n.energized then 0 else n.customers),
                        a.load + n.load, a.loadOff + (if n.energized then 0 else n.load))]
  }

  function Share(to: int, id: int, weight: nat): nat {
    if to == id && id != 0 then weight else 0
  }

  lemma AddedAmount(stat: map<int, Totals>, to: int, n: Node, id: int, m: Measure)
    ensures Amount(TotalsAt(Added(stat, to, n), id), m)
         == Amount(TotalsAt(stat, id), m) + Share(to, id, Weight(n, m))
  {
  }

  /** How much of a node of the network counts for `id`: once for each group of its that `id` is. */
  function Credit(g: Graph, x: Facts, id: int, m: Measure): int -> nat {
    (v: int) => if v in g.nodes then CreditOf(g, x, g.nodes[v], id, Weight(g.nodes[v], m)) else 0
  }

  function CreditOf(g: Graph, x: Facts, n: Node, id: int, w: nat): nat {
    Share(At(x.trafoOf, n.route), id, w) + Share(n.gd, id, w)
    + if n.feeder in g.feeders then
        Share(n.feeder, id, w) + Share(g.feeders[n.feeder].trafoGI, id, w) + Share(g.feeders[n.feeder].gi, id, w)
      else 0
  }

  function RouteCredit(g: Graph, id: int, m: Measure): int -> nat {
    (v: int) => if v in g.nodes then Share(g.nodes[v].route, id, Weight(g.nodes[v], m)) else 0
  }

  /** The totals after one more customer. */
  function Credited(g: Graph, x: Facts, stat: map<int, Totals>, n: Node): map<int, Totals> {
    var one := Added(Added(stat, At(x.trafoOf, n.route), n), n.gd, n);
    if n.feeder in g.feeders then
      var f := g.feeders[n.feeder];
      Added(Added(Added(one, n.feeder, n), f.trafoGI, n), f.gi, n)
    else one
  }

  lemma CreditedAmount(g: Graph, x: Facts, stat: map<int, Totals>, v: int, id: int, m: Measure)
    requires v in g.nodes
    ensures Amount(TotalsAt(Credited(g, x, stat, g.nodes[v]), id), m)
         == Amount(TotalsAt(stat, id), m) + Credit(g, x, id, m)(v)
  {
    hide Added, TotalsAt, Amount, Weight, Share;
    var n := g.nodes[v];
    var a := Added(stat, At(x.trafoOf, n.route), n);
    AddedAmount(stat, At(x.trafoOf, n.route), n, id, m);
    var b := Added(a, n.gd, n);
    AddedAmount(a, n.gd, n, id, m);
    if n.feeder in g.feeders {
      var f := g.feeders[n.feeder];
      AddedAmount(b, n.feeder, n, id, m);
      AddedAmount(Added(b, n.feeder, n), f.trafoGI, n, id, m);
      AddedAmount(Added(Added(b, n.feeder, n), f.trafoGI, n), f.gi, n, id, m);
    }
  }

  /** The totals are sums over the customers listed. */
  ghost predicate Summed(g: Graph, x: Facts, stat: map<int, Totals>, routeStat: map<int, Totals>, customers: seq<int>) {
    && (forall id, m :: Amount(TotalsAt(stat, id), m) == Sum(Credit(g, x, id, m), customers))
    && (forall id, m :: Amount(TotalsAt(routeStat, id), m) == Sum(RouteCredit(g, id, m), customers))
  }

  lemma SummedSnoc(g: Graph, x: Facts, stat: map<int, Totals>, routeStat: map<int, Totals>, customers: seq<int>, v: int)
    requires Summed(g, x, stat, routeStat, customers) && v in g.nodes
    ensures Summed(g, x, Credited(g, x, stat, g.nodes[v]), Added(routeStat, g.nodes[v].route, g.nodes[v]),
      customers + [v])
  {
    hide Credited, Added, TotalsAt, Amount, Share, CreditOf;
    var n := g.nodes[v];
    forall id, m ensures Amount(TotalsAt(Credited(g, x, stat, n), id), m) == Sum(Credit(g, x, id, m), customers + [v]) {
      CreditedAmount(g, x, stat, v, id, m);
      SumSnoc(Credit(g, x, id, m), customers, v);
    }
    forall id, m ensures Amount(TotalsAt(Added(routeStat, n.route, n), id), m)
      == Sum(RouteCredit(g, id, m), customers + [v]) {
      AddedAmount(routeStat, n.route, n, id, m);
      SumSnoc(RouteCredit(g, id, m), customers, v);
    }
  }

  // ------------------------------------------------------------------ what the index finds out

  lemma GiMayGrow(g: Graph, x: Facts, t: int, gi: int, lists: SlotLists, known: Known)
    requires Holds(g, x, lists, known) && t !in KnownOf(known, TrafoGI)
    ensures Holds(g, x.(giOf := x.giOf[t := gi]), lists, known)
  {
    var x' := x.(giOf := x.giOf[t := gi]);
    forall kind, v | v in KnownOf(known, kind) ensures Parent(g, x', Ref(kind, v)) == Parent(g, x, Ref(kind, v)) {
    }
    hide Holds, Parent;
    FactsMayGrow(g, x, x', lists, known);
  }

  lemma GdMayGrow(g: Graph, x: Facts, gdOf: map<int, int>, lists: SlotLists, known: Known)
    requires Holds(g, x, lists, known) && KnownOf(known, Route) == {}
    ensures Holds(g, x.(gdOf := gdOf), lists, known)
  {
    var x' := x.(gdOf := gdOf);
    forall kind, v | v in KnownOf(known, kind) ensures Parent(g, x', Ref(kind, v)) == Parent(g, x, Ref(kind, v)) {
    }
    hide Holds, Parent;
    FactsMayGrow(g, x, x', lists, known);
  }

  lemma TrafoMayGrow(g: Graph, x: Facts, r: int, td: int, lists: SlotLists, known: Known)
    requires Holds(g, x, lists, known) && r !in KnownOf(known, Route)
    ensures Holds(g, x.(trafoOf := x.trafoOf[r := td]), lists, known)
  {
    var x' := x.(trafoOf := x.trafoOf[r := td]);
    forall kind, v | v in KnownOf(known, kind) ensures Parent(g, x', Ref(kind, v)) == Parent(g, x, Ref(kind, v)) {
    }
    hide Holds, Parent;
    FactsMayGrow(g, x, x', lists, known);
  }

  /** What has been found out about transformers, after some feeders and some nodes. */
  ghost predicate GiSoFar(g: Graph, giOf: map<int, int>, feeders: set<int>, nodes: set<int>) {
    && (forall h, t :: h in feeders && FedBy(g, h, t) ==> t in giOf)
    && (forall t :: t in giOf ==>
          || (exists h :: FedBy(g, h, t) && g.feeders[h].gi == giOf[t])
          || ((forall h :: !FedBy(g, h, t)) && HasType(g, t, TrafoGIType) && giOf[t] != 0
            && IsNearest(g, t, GIType, 2, giOf[t])))
    && (forall t :: t in nodes && HasType(g, t, TrafoGIType) && t !in giOf ==> NoneWithin(g, t, GIType, 2))
  }

  ghost predicate GdSoFar(g: Graph, gdOf: map<int, int>, nodes: set<int>) {
    && (forall n, r :: n in nodes && OnRoute(g, n, r) ==> r in gdOf && (gdOf[r] == 0 ==> g.nodes[n].gd == 0))
    && (forall r :: r in gdOf ==> exists n :: OnRoute(g, n, r) && g.nodes[n].gd == gdOf[r])
  }

  ghost predicate TrafoSoFar(g: Graph, trafoOf: map<int, int>, routes: set<int>) {
    && trafoOf.Keys <= routes
    && (forall r :: r in routes ==> IsRouteTrafo(g, r, At(trafoOf, r)))
    && (forall r :: r in trafoOf ==> trafoOf[r] != 0)
  }

  lemma GiAfterFeeder(g: Graph, giOf: map<int, int>, feeders: set<int>, h: int)
    requires GiSoFar(g, giOf, feeders, {}) && h in g.feeders
    ensures var f := g.feeders[h];
      if f.gi != 0 && f.trafoGI != 0 && f.trafoGI !in giOf then GiSoFar(g, giOf[f.trafoGI := f.gi], feeders + {h}, {})
      else GiSoFar(g, giOf, feeders + {h}, {})
  {
    hide HasType, IsNearest, NoneWithin;
    var f := g.feeders[h];
    if f.gi != 0 && f.trafoGI != 0 && f.trafoGI !in giOf {
      assert FedBy(g, h, f.trafoGI);
    }
  }

  lemma GiAfterNode(g: Graph, giOf: map<int, int>, nodes: set<int>, t: int, gi: int)
    requires GiSoFar(g, giOf, g.feeders.Keys, nodes)
    requires HasType(g, t, TrafoGIType) && t !in giOf ==> IsNearest(g, t, GIType, 2, gi)
    ensures if HasType(g, t, TrafoGIType) && t !in giOf && gi != 0 then
              GiSoFar(g, giOf[t := gi], g.feeders.Keys, nodes + {t})
            else GiSoFar(g, giOf, g.feeders.Keys, nodes + {t})
  {
    assert HasType(g, t, TrafoGIType) && t !in giOf ==> forall h :: !FedBy(g, h, t);
    hide HasType, FedBy, NoneWithin;
    if gi != 0 { hide IsNearest; }
  }

  lemma GdAfterNode(g: Graph, gdOf: map<int, int>, nodes: set<int>, v: int)
    requires GdSoFar(g, gdOf, nodes) && v in g.nodes
    ensures var n := g.nodes[v];
      if n.route != 0 && At(gdOf, n.route) == 0 then GdSoFar(g, gdOf[n.route := n.gd], nodes + {v})
      else GdSoFar(g, gdOf, nodes + {v})
  {
    var n := g.nodes[v];
    if n.route != 0 { assert OnRoute(g, v, n.route); }
    if n.route != 0 && At(gdOf, n.route) == 0 {
      var gdOf' := gdOf[n.route := n.gd];
      forall r | r in gdOf' ensures exists m :: OnRoute(g, m, r) && g.nodes[m].gd == gdOf'[r] {
        if r == n.route { assert OnRoute(g, v, r) && g.nodes[v].gd == gdOf'[r]; }
      }
    }
  }

  lemma TrafoAfterRoute(g: Graph, trafoOf: map<int, int>, routes: set<int>, r: int, td: int)
    requires TrafoSoFar(g, trafoOf, routes) && IsRouteTrafo(g, r, td) && r !in routes
    ensures if td != 0 then TrafoSoFar(g, trafoOf[r := td], routes + {r}) else TrafoSoFar(g, trafoOf, routes + {r})
  {
    hide IsRouteTrafo;
  }

  /** The transformer a route starts at, seen from one end: the end itself, or another node to which a line listed at
      the end leads, if the end is a rack; 0 if there is none. */
  ghost predicate StartsAt(g: Graph, end: int, td: int)
    requires end in g.nodes
  {
    match g.nodes[end].typ
    case TrafoType => td == end
    case RakType =>
      if td != 0 then td != end && td in g.nodes && g.nodes[td].typ == TrafoType && NextTo(g, end, td)
      else forall t :: t in g.nodes && t != end && g.nodes[t].typ == TrafoType ==> !NextTo(g, end, t)
    case _ => td == 0
  }

  ghost predicate NextTo(g: Graph, a: int, b: int) {
    exists e :: a in g.adj && e in g.adj[a] && e in g.edges
      && (if g.edges[e].from == a then g.edges[e].to else g.edges[e].from) == b
  }

  lemma {:induction false} OneHop(g: Graph, a: int, b: int)
    requires b in g.nodes
    ensures b in Ball(g, a, 1) <==> b == a || NextTo(g, a, b)
  {
    BallStep(g, a, 0, b);
  }

  lemma {:induction false} StartMeans(g: Graph, end: int, td: int)
    requires end in g.nodes && 0 !in g.nodes && IsTrafoAtEnd(g, end, td)
    ensures StartsAt(g, end, td)
  {
    hide NextTo, Ball;
    if g.nodes[end].typ == RakType {
      if td != 0 {
        OneHop(g, end, td);
      } else {
        forall t | t in g.nodes && t != end && g.nodes[t].typ == TrafoType ensures !NextTo(g, end, t) {
          OneHop(g, end, t);
        }
      }
    }
  }

  /** The transformer at the first end of a route that has one. */
  method FindRouteTrafo(g: Graph, r: int) returns (td: int)
    requires WellFormed(g)
    ensures IsRouteTrafo(g, r, td)
    ensures r !in g.edges ==> td == 0
    ensures r in g.edges ==> var e := g.edges[r];
      StartsAt(g, e.from, td) || (StartsAt(g, e.from, 0) && StartsAt(g, e.to, td))
    ensures r in g.edges && td == 0 ==> StartsAt(g, g.edges[r].from, 0) && StartsAt(g, g.edges[r].to, 0)
  {
    td := RouteTrafo(g, r);
    hide IsTrafoAtEnd, StartsAt;
    if r in g.edges {
      var e := g.edges[r];
      forall t | IsTrafoAtEnd(g, e.from, t) ensures StartsAt(g, e.from, t) { StartMeans(g, e.from, t); }
      forall t | IsTrafoAtEnd(g, e.to, t) ensures StartsAt(g, e.to, t) { StartMeans(g, e.to, t); }
    }
  }

  method RouteTrafo(g: Graph, r: int) returns (td: int)
    requires WellFormed(g)
    ensures IsRouteTrafo(g, r, td)
  {
    hide IsNearest;
    td := 0;
    if r !in g.edges { return; }
    var e := g.edges[r];
    td := FindTrafoAt(g, e.from);
    if td == 0 {
      td := FindTrafoAt(g, e.to);
    }
  }

  method FindTrafoAt(g: Graph, end: int) returns (td: int)
    requires WellFormed(g) && end in g.nodes
    ensures IsTrafoAtEnd(g, end, td)
  {
    match g.nodes[end].typ {
      case TrafoType => td := end;
      case RakType => td := NeighbourOfType(g, end, TrafoType, 1);
      case _ => td := 0;
    }
  }
}
