/** Building the index of the asset hierarchy: feeders first, then nodes, routes and customers, each in whatever order a
    map is visited; at the end every list is sorted. */
module AssetBuild {
  import opened Listings
  import opened Orders
  import opened AssetGraph
  import opened AssetForest
  import opened AssetIndex

  /** Every list of the index sorted. */
  method SortLists(lists: SlotLists) returns (sorted: SlotLists)
    requires AllDistinct(lists)
    ensures forall s :: Ascending(ListAt(sorted, s)) && forall v :: v in ListAt(sorted, s) <==> v in ListAt(lists, s)
  {
    sorted := map[];
    var left := lists.Keys;
    while left != {}
      invariant left <= lists.Keys && sorted.Keys == lists.Keys - left
      invariant forall s :: s in sorted ==> Ascending(sorted[s]) && forall v :: v in sorted[s] <==> v in lists[s]
      decreases left
    {
      var s := Pick(left);
      var t := SortIds(lists[s]);
      sorted, left := sorted[s := t], left - {s};
    }
  }

  lemma SortedHolds(g: Graph, x: Facts, lists: SlotLists, sorted: SlotLists, known: Known)
    requires Holds(g, x, lists, known)
    requires forall s :: Ascending(ListAt(sorted, s)) && forall v :: v in ListAt(sorted, s) <==> v in ListAt(lists, s)
    ensures Holds(g, x, sorted, known)
  {
    hide Placed, KnownOf;
    forall s | s in sorted ensures Distinct(sorted[s]) {
      assert Ascending(ListAt(sorted, s));
    }
  }

  /** Two listings of the same ids. */
  ghost predicate SameIds(a: seq<int>, b: seq<int>) {
    Distinct(a) && Distinct(b) && forall v :: v in a <==> v in b
  }

  lemma SameSum(w: int -> nat, a: seq<int>, b: seq<int>)
    requires SameIds(a, b)
    ensures Sum(w, a) == Sum(w, b)
  {
    forall v | v in a ensures v in b {}
    SumOfPart(w, a, b);
    forall v | v in b ensures v in a {}
    SumOfPart(w, b, a);
  }

  lemma SummedSame(g: Graph, x: Facts, stat: map<int, Totals>, routeStat: map<int, Totals>, a: seq<int>, b: seq<int>)
    requires Summed(g, x, stat, routeStat, a) && SameIds(a, b)
    ensures Summed(g, x, stat, routeStat, b)
  {
    hide Credit, RouteCredit, Amount, TotalsAt, SameIds;
    forall id, m ensures Sum(Credit(g, x, id, m), a) == Sum(Credit(g, x, id, m), b) {
      SameSum(Credit(g, x, id, m), a, b);
    }
    forall id, m ensures Sum(RouteCredit(g, id, m), a) == Sum(RouteCredit(g, id, m), b) {
      SameSum(RouteCredit(g, id, m), a, b);
    }
  }

  /** The levels that have lists. */
  predicate IsLevel(kind: Kind) {
    kind != Root && kind != Loose
  }

  /** Exactly the assets of the network are known. */
  ghost predicate KnowsAll(g: Graph, x: Facts, known: Known) {
    forall kind, v :: v in KnownOf(known, kind) <==> IsLevel(kind) && IsAsset(g, x, Ref(kind, v))
  }

  /** What the index knows after the feeders and some of the nodes. */
  ghost predicate NodesKnown(g: Graph, known: Known, giOf: map<int, int>, done: set<int>) {
    && (forall v :: v in KnownOf(known, GI) <==> v in done && HasType(g, v, GIType))
    && (forall v :: v in KnownOf(known, Gardu) <==> v in done && HasType(g, v, GDType))
    && (forall v :: v in KnownOf(known, Trafo) <==> v in done && HasType(g, v, TrafoType))
    && (forall v :: v in KnownOf(known, TrafoGI) <==> v in giOf || (v in done && HasType(g, v, TrafoGIType)))
    && KnownOf(known, FeederLine) == g.feeders.Keys
    && (forall k :: !IsLevel(k) || k == Route || k == Customer ==> KnownOf(known, k) == {})
  }

  function LevelOf(typ: NodeType): Option<Kind> {
    match typ
    case GIType => Some(GI)
    case TrafoGIType => Some(TrafoGI)
    case GDType => Some(Gardu)
    case TrafoType => Some(Trafo)
    case _ => None
  }

  lemma NotKnownYet(g: Graph, known: Known, giOf: map<int, int>, done: set<int>, id: int)
    requires NodesKnown(g, known, giOf, done) && id !in done
    ensures id !in KnownOf(known, GI) && id !in KnownOf(known, Gardu) && id !in KnownOf(known, Trafo)
    ensures id in KnownOf(known, TrafoGI) <==> id in giOf
  {
    hide KnownOf, HasType;
  }

  lemma NoRoutesYet(g: Graph, known: Known, giOf: map<int, int>, done: set<int>)
    requires NodesKnown(g, known, giOf, done)
    ensures KnownOf(known, Route) == {} && KnownOf(known, Customer) == {}
  {
    hide KnownOf, HasType;
  }

  lemma OnlyFeedersKnown(g: Graph, known: Known, giOf: map<int, int>)
    requires KnownOf(known, FeederLine) == g.feeders.Keys && KnownOf(known, TrafoGI) == giOf.Keys
    requires forall k :: k != FeederLine && k != TrafoGI ==> KnownOf(known, k) == {}
    ensures NodesKnown(g, known, giOf, {})
  {
    hide KnownOf, HasType;
  }

  /** One more node, filed at its level. */
  lemma NodesKnownNext(g: Graph, known: Known, known': Known, giOf: map<int, int>, giOf': map<int, int>, id: int,
                       done: set<int>)
    requires NodesKnown(g, known, giOf, done) && id in g.nodes
    requires forall k :: Some(k) == LevelOf(g.nodes[id].typ) ==> KnownOf(known', k) == KnownOf(known, k) + {id}
    requires forall k :: Some(k) != LevelOf(g.nodes[id].typ) ==> KnownOf(known', k) == KnownOf(known, k)
    requires giOf'.Keys == giOf.Keys || (g.nodes[id].typ == TrafoGIType && giOf'.Keys == giOf.Keys + {id})
    ensures NodesKnown(g, known', giOf', done + {id})
  {
    hide KnownOf;
    forall k | !IsLevel(k) || k == Route || k == Customer ensures KnownOf(known', k) == {} {
      assert Some(k) != LevelOf(g.nodes[id].typ);
    }
    forall k ensures Some(k) == LevelOf(g.nodes[id].typ) || KnownOf(known', k) == KnownOf(known, k) {}
  }

  lemma EverythingKnown(g: Graph, x: Facts, before: Known, known: Known)
    requires NodesKnown(g, before, x.giOf, g.nodes.Keys)
    requires KnownOf(known, Route) == x.gdOf.Keys
    requires forall v :: v in KnownOf(known, Customer) <==> v in g.nodes && g.nodes[v].sink
    requires forall k :: k != Route && k != Customer ==> KnownOf(known, k) == KnownOf(before, k)
    ensures KnowsAll(g, x, known)
  {
    hide KnownOf;
  }

  class Index {
    var lists: SlotLists
    var giOf: map<int, int>
    var gdOf: map<int, int>
    var trafoOf: map<int, int>
    var stat: map<int, Totals>
    var routeStat: map<int, Totals>
    ghost var known: Known
    ghost var counted: seq<int>

    function Found(): Facts
      reads this
    {
      Facts(giOf, gdOf, trafoOf)
    }

    ghost predicate Filing(g: Graph)
      reads this
    {
      Holds(g, Found(), lists, known)
    }

    /** The finished index: the lists hold exactly the assets, sorted, under their parents; the totals are the sums. */
    ghost predicate Complete(g: Graph)
      reads this
    {
      && FactsFit(g, Found()) && Holds(g, Found(), lists, known) && KnowsAll(g, Found(), known)
      && (forall s :: Ascending(ListAt(lists, s)))
      && Summed(g, Found(), stat, routeStat, ListAt(lists, All(Customer)))
    }

    constructor (g: Graph)
      ensures Filing(g) && known == map[] && giOf == map[] && gdOf == map[] && trafoOf == map[]
      ensures stat == map[] && routeStat == map[] && counted == []
    {
      lists, giOf, gdOf, trafoOf, stat, routeStat := map[], map[], map[], map[], map[], map[];
      known, counted := map[], [];
    }

    /** A feeder, and its transformer when it is the first one there. */
    method AddFeeder(g: Graph, h: int)
      requires Filing(g) && h in g.feeders && h !in KnownOf(known, FeederLine) && KnownOf(known, TrafoGI) == giOf.Keys
      requires GiSoFar(g, giOf, KnownOf(known, FeederLine), {})
      modifies this`lists, this`giOf, this`known
      ensures Filing(g) && KnownOf(known, TrafoGI) == giOf.Keys && GiSoFar(g, giOf, KnownOf(known, FeederLine), {})
      ensures KnownOf(known, FeederLine) == KnownOf(old(known), FeederLine) + {h}
      ensures forall k :: k != FeederLine && k != TrafoGI ==> KnownOf(known, k) == KnownOf(old(known), k)
    {
      hide Holds, GiSoFar, Filed;
      var f := g.feeders[h];
      GiAfterFeeder(g, giOf, KnownOf(known, FeederLine), h);
      if f.gi != 0 && f.trafoGI != 0 && f.trafoGI !in giOf {
        GiMayGrow(g, Found(), f.trafoGI, f.gi, lists, known);
        giOf := giOf[f.trafoGI := f.gi];
        PlacingHolds(g, Found(), lists, known, TrafoGI, f.trafoGI);
        lists := Filed(Filed(lists, All(TrafoGI), f.trafoGI), Under(Ref(GI, f.gi), TrafoGI), f.trafoGI);
        known := Knowing(known, TrafoGI, f.trafoGI);
      }
      PlacingHolds(g, Found(), lists, known, FeederLine, h);
      lists := Filed(lists, All(FeederLine), h);
      if f.gi == 0 {
        lists := Filed(lists, Under(LOOSE, FeederLine), h);
      } else if f.trafoGI != 0 {
        lists := Filed(lists, Under(Ref(TrafoGI, f.trafoGI), FeederLine), h);
      } else {
        lists := Filed(lists, Under(Ref(GI, f.gi), FeederLine), h);
      }
      known := Knowing(known, FeederLine, h);
    }

    /** A transformer without feeders: its substation is looked for within two hops. */
    method AddLoneTrafo(g: Graph, id: int)
      requires WellFormed(g) && Filing(g) && HasType(g, id, TrafoGIType) && id !in giOf
        && id !in KnownOf(known, TrafoGI)
      modifies this`lists, this`giOf, this`known
      ensures Filing(g) && KnownOf(known, TrafoGI) == KnownOf(old(known), TrafoGI) + {id}
      ensures forall k :: k != TrafoGI ==> KnownOf(known, k) == KnownOf(old(known), k)
      ensures exists gi :: IsNearest(g, id, GIType, 2, gi) && giOf == if gi != 0 then old(giOf)[id := gi] else old(giOf)
    {
      hide Holds, Filed, IsNearest, WellFormed;
      var gi := NeighbourOfType(g, id, GIType, 2);
      if gi != 0 {
        GiMayGrow(g, Found(), id, gi, lists, known);
        giOf := giOf[id := gi];
      }
      PlacingHolds(g, Found(), lists, known, TrafoGI, id);
      lists := Filed(lists, All(TrafoGI), id);
      if gi != 0 {
        lists := Filed(lists, Under(Ref(GI, gi), TrafoGI), id);
      }
      known := Knowing(known, TrafoGI, id);
    }

    method AddGardu(g: Graph, id: int)
      requires Filing(g) && HasType(g, id, GDType) && id !in KnownOf(known, Gardu)
      modifies this`lists, this`known
      ensures Filing(g) && KnownOf(known, Gardu) == KnownOf(old(known), Gardu) + {id}
      ensures forall k :: k != Gardu ==> KnownOf(known, k) == KnownOf(old(known), k)
    {
      hide Holds, Filed;
      PlacingHolds(g, Found(), lists, known, Gardu, id);
      var n := g.nodes[id];
      lists := Filed(lists, All(Gardu), id);
      if n.feeder in g.feeders {
        lists := Filed(lists, Under(Ref(FeederLine, n.feeder), Gardu), id);
      } else {
        lists := Filed(lists, Under(LOOSE, Gardu), id);
      }
      known := Knowing(known, Gardu, id);
    }

    method AddTrafo(g: Graph, id: int)
      requires Filing(g) && HasType(g, id, TrafoType) && id !in KnownOf(known, Trafo)
      modifies this`lists, this`known
      ensures Filing(g) && KnownOf(known, Trafo) == KnownOf(old(known), Trafo) + {id}
      ensures forall k :: k != Trafo ==> KnownOf(known, k) == KnownOf(old(known), k)
    {
      hide Holds, Filed;
      PlacingHolds(g, Found(), lists, known, Trafo, id);
      var n := g.nodes[id];
      lists := Filed(lists, All(Trafo), id);
      if n.gd != 0 {
        lists := Filed(lists, Under(Ref(Gardu, n.gd), Trafo), id);
      } else {
        lists := Filed(lists, Under(LOOSE, Trafo), id);
      }
      known := Knowing(known, Trafo, id);
    }

    method AddSubstation(g: Graph, id: int)
      requires Filing(g) && HasType(g, id, GIType) && id !in KnownOf(known, GI)
      modifies this`lists, this`known
      ensures Filing(g) && KnownOf(known, GI) == KnownOf(old(known), GI) + {id}
      ensures forall k :: k != GI ==> KnownOf(known, k) == KnownOf(old(known), k)
    {
      hide Holds, Filed;
      PlacingHolds(g, Found(), lists, known, GI, id);
      lists := Filed(lists, All(GI), id);
      known := Knowing(known, GI, id);
    }

    method AddRoute(g: Graph, r: int)
      requires WellFormed(g) && Filing(g) && r in gdOf && r !in KnownOf(known, Route)
        && TrafoSoFar(g, trafoOf, KnownOf(known, Route))
      modifies this`lists, this`trafoOf, this`known
      ensures Filing(g) && KnownOf(known, Route) == KnownOf(old(known), Route) + {r}
        && TrafoSoFar(g, trafoOf, KnownOf(known, Route))
      ensures forall k :: k != Route ==> KnownOf(known, k) == KnownOf(old(known), k)
    {
      hide Holds, Filed, IsRouteTrafo, WellFormed;
      var td := FindRouteTrafo(g, r);
      TrafoAfterRoute(g, trafoOf, KnownOf(known, Route), r, td);
      if td != 0 {
        TrafoMayGrow(g, Found(), r, td, lists, known);
        trafoOf := trafoOf[r := td];
      }
      PlacingHolds(g, Found(), lists, known, Route, r);
      lists := Filed(lists, All(Route), r);
      if td != 0 {
        lists := Filed(lists, Under(Ref(Trafo, td), Route), r);
      } else if gdOf[r] != 0 {
        lists := Filed(lists, Under(Ref(Gardu, gdOf[r]), Route), r);
      } else {
        lists := Filed(lists, Under(LOOSE, Route), r);
      }
      known := Knowing(known, Route, r);
    }

    method FileCustomer(g: Graph, id: int)
      requires Filing(g) && id in g.nodes && g.nodes[id].sink && id !in KnownOf(known, Customer)
      modifies this`lists, this`known
      ensures Filing(g) && KnownOf(known, Customer) == KnownOf(old(known), Customer) + {id}
      ensures forall k :: k != Customer ==> KnownOf(known, k) == KnownOf(old(known), k)
    {
      hide Holds, Filed;
      PlacingHolds(g, Found(), lists, known, Customer, id);
      var n := g.nodes[id];
      lists := Filed(lists, All(Customer), id);
      if n.route != 0 {
        lists := Filed(lists, Under(Ref(Route, n.route), Customer), id);
      } else if n.gd != 0 {
        lists := Filed(lists, Under(Ref(Gardu, n.gd), Customer), id);
      } else if n.feeder != 0 {
        lists := Filed(lists, Under(Ref(FeederLine, n.feeder), Customer), id);
      } else {
        lists := Filed(lists, Under(LOOSE, Customer), id);
      }
      known := Knowing(known, Customer, id);
    }

    /** A customer is filed, and counted for every group upstream. */
    method AddCustomer(g: Graph, id: int)
      requires Filing(g) && id in g.nodes && g.nodes[id].sink && id !in KnownOf(known, Customer)
      requires Summed(g, Found(), stat, routeStat, counted) && Lists(counted, KnownOf(known, Customer))
      modifies this`lists, this`known, this`stat, this`routeStat, this`counted
      ensures Filing(g) && KnownOf(known, Customer) == KnownOf(old(known), Customer) + {id}
      ensures forall k :: k != Customer ==> KnownOf(known, k) == KnownOf(old(known), k)
      ensures Summed(g, Found(), stat, routeStat, counted) && Lists(counted, KnownOf(known, Customer))
    {
      hide Holds, KnownOf, Added, Lists, Credited, Summed;
      SummedSnoc(g, Found(), stat, routeStat, counted, id);
      ListsAppend(counted, KnownOf(known, Customer), id);
      FileCustomer(g, id);
      var n := g.nodes[id];
      routeStat := Added(routeStat, n.route, n);
      stat := Credited(g, Found(), stat, n);
      counted := counted + [id];
    }

    /** All feeders. */
    method AddFeeders(g: Graph)
      requires Filing(g) && known == map[] && giOf == map[]
      modifies this`lists, this`giOf, this`known
      ensures Filing(g) && KnownOf(known, TrafoGI) == giOf.Keys && KnownOf(known, FeederLine) == g.feeders.Keys
      ensures GiSoFar(g, giOf, g.feeders.Keys, {})
      ensures forall k :: k != FeederLine && k != TrafoGI ==> KnownOf(known, k) == {}
    {
      hide Holds, GiSoFar;
      NothingFoundYet(g);
      var left := g.feeders.Keys;
      while left != {}
        invariant left <= g.feeders.Keys && Filing(g)
        invariant KnownOf(known, TrafoGI) == giOf.Keys && KnownOf(known, FeederLine) == g.feeders.Keys - left
        invariant GiSoFar(g, giOf, KnownOf(known, FeederLine), {})
        invariant forall k :: k != FeederLine && k != TrafoGI ==> KnownOf(known, k) == {}
        decreases left
      {
        var h := Pick(left);
        AddFeeder(g, h);
        left := left - {h};
      }
    }

    /** One node: filed by its type. */
    method AddNode(g: Graph, id: int, ghost done: set<int>)
      requires WellFormed(g) && Filing(g) && id in g.nodes && id !in done && NodesKnown(g, known, giOf, done)
      requires GiSoFar(g, giOf, g.feeders.Keys, done)
      modifies this`lists, this`giOf, this`known
      ensures Filing(g) && NodesKnown(g, known, giOf, done + {id}) && GiSoFar(g, giOf, g.feeders.Keys, done + {id})
    {
      hide Holds, GiSoFar, WellFormed, IsNearest, KnownOf, NodesKnown;
      ghost var known0, giOf0 := known, giOf;
      NotKnownYet(g, known, giOf, done, id);
      match g.nodes[id].typ {
        case GIType =>
          AddSubstation(g, id);
        case TrafoGIType =>
          if id !in giOf {
            AddLoneTrafo(g, id);
            ghost var gi :| IsNearest(g, id, GIType, 2, gi) && giOf == if gi != 0 then giOf0[id := gi] else giOf0;
            GiAfterNode(g, giOf0, done, id, gi);
            NodesKnownNext(g, known0, known, giOf0, giOf, id, done);
            return;
          }
        case GDType =>
          AddGardu(g, id);
        case TrafoType =>
          AddTrafo(g, id);
        case _ =>
      }
      GiAfterNode(g, giOf, done, id, 0);
      NodesKnownNext(g, known0, known, giOf0, giOf, id, done);
    }

    /** The route a node is on gets the node's distribution substation, unless it has one already. */
    method NoteRoute(g: Graph, id: int, ghost done: set<int>)
      requires Filing(g) && id in g.nodes && GdSoFar(g, gdOf, done) && KnownOf(known, Route) == {}
      modifies this`gdOf
      ensures Filing(g) && GdSoFar(g, gdOf, done + {id})
    {
      hide Holds, GdSoFar;
      GdAfterNode(g, gdOf, done, id);
      var n := g.nodes[id];
      if n.route != 0 {
        if n.route !in gdOf || gdOf[n.route] == 0 {
          GdMayGrow(g, Found(), gdOf[n.route := n.gd], lists, known);
          gdOf := gdOf[n.route := n.gd];
        }
      }
    }

    /** All nodes. */
    method AddNodes(g: Graph)
      requires WellFormed(g) && Filing(g) && NodesKnown(g, known, giOf, {}) && gdOf == map[]
      requires GiSoFar(g, giOf, g.feeders.Keys, {})
      modifies this`lists, this`giOf, this`gdOf, this`known
      ensures Filing(g) && NodesKnown(g, known, giOf, g.nodes.Keys)
      ensures GiSoFar(g, giOf, g.feeders.Keys, g.nodes.Keys) && GdSoFar(g, gdOf, g.nodes.Keys)
    {
      hide WellFormed, Holds, GiSoFar, GdSoFar, NodesKnown, Filing;
      NothingOnRoutesYet(g);
      var left := g.nodes.Keys;
      ghost var done: set<int> := {};
      while left != {}
        invariant left <= g.nodes.Keys && done == g.nodes.Keys - left
        invariant Filing(g) && NodesKnown(g, known, giOf, done)
        invariant GiSoFar(g, giOf, g.feeders.Keys, done) && GdSoFar(g, gdOf, done)
        decreases left
      {
        var id := Pick(left);
        AddNode(g, id, done);
        NoRoutesYet(g, known, giOf, done + {id});
        NoteRoute(g, id, done);
        left := left - {id};
        done := done + {id};
      }
      assert done == g.nodes.Keys;
    }

    /** All routes. */
    method AddRoutes(g: Graph)
      requires WellFormed(g) && Filing(g) && KnownOf(known, Route) == {} && trafoOf == map[]
      modifies this`lists, this`trafoOf, this`known
      ensures Filing(g) && KnownOf(known, Route) == gdOf.Keys && TrafoSoFar(g, trafoOf, gdOf.Keys)
      ensures forall k :: k != Route ==> KnownOf(known, k) == KnownOf(old(known), k)
    {
      hide WellFormed, Holds, IsRouteTrafo;
      var left := gdOf.Keys;
      while left != {}
        invariant left <= gdOf.Keys && Filing(g) && KnownOf(known, Route) == gdOf.Keys - left
        invariant TrafoSoFar(g, trafoOf, KnownOf(known, Route))
        invariant forall k :: k != Route ==> KnownOf(known, k) == KnownOf(old(known), k)
        decreases left
      {
        var r := Pick(left);
        AddRoute(g, r);
        left := left - {r};
      }
    }

    /** All customers. */
    method AddCustomers(g: Graph)
      requires Filing(g) && KnownOf(known, Customer) == {} && counted == [] && Summed(g, Found(), stat, routeStat, [])
      modifies this`lists, this`known, this`stat, this`routeStat, this`counted
      ensures Filing(g) && Summed(g, Found(), stat, routeStat, counted) && Lists(counted, KnownOf(known, Customer))
      ensures forall v :: v in KnownOf(known, Customer) <==> v in g.nodes && g.nodes[v].sink
      ensures forall k :: k != Customer ==> KnownOf(known, k) == KnownOf(old(known), k)
    {
      hide Holds, Summed;
      var left := g.nodes.Keys;
      while left != {}
        invariant left <= g.nodes.Keys && Filing(g)
        invariant forall v :: v in KnownOf(known, Customer) <==> v in g.nodes.Keys - left && g.nodes[v].sink
        invariant Summed(g, Found(), stat, routeStat, counted) && Lists(counted, KnownOf(known, Customer))
        invariant forall k :: k != Customer ==> KnownOf(known, k) == KnownOf(old(known), k)
        decreases left
      {
        var id := Pick(left);
        if g.nodes[id].sink {
          AddCustomer(g, id);
        }
        left := left - {id};
      }
    }

    /** The whole index, whatever the order in which feeders, nodes and routes come up. */
    method Build(g: Graph)
      requires WellFormed(g) && Filing(g) && known == map[] && giOf == map[] && gdOf == map[] && trafoOf == map[]
      requires stat == map[] && routeStat == map[] && counted == []
      modifies this
      ensures Complete(g)
    {
      hide WellFormed, Holds, GiSoFar, GdSoFar, TrafoSoFar, FactsFit, Summed, KnownOf, KnowsAll, NodesKnown;
      AddFeeders(g);
      OnlyFeedersKnown(g, known, giOf);
      AddNodes(g);
      NoRoutesYet(g, known, giOf, g.nodes.Keys);
      ghost var known1 := known;
      AddRoutes(g);
      NothingSummed(g, Found());
      AddCustomers(g);
      Fits(g, giOf, gdOf, trafoOf);
      EverythingKnown(g, Found(), known1, known);
      ghost var before := lists;
      AllListsDistinct(g, Found(), lists, known);
      lists := SortLists(lists);
      SortedHolds(g, Found(), before, lists, known);
      CustomersListed(g, Found(), lists, known, counted);
      SummedSame(g, Found(), stat, routeStat, counted, ListAt(lists, All(Customer)));
    }
  }

  lemma NothingFoundYet(g: Graph)
    ensures GiSoFar(g, map[], {}, {})
  {
  }

  lemma NothingOnRoutesYet(g: Graph)
    ensures GdSoFar(g, map[], {})
  {
  }

  lemma NothingSummed(g: Graph, x: Facts)
    ensures Summed(g, x, map[], map[], [])
  {
  }

  lemma Fits(g: Graph, giOf: map<int, int>, gdOf: map<int, int>, trafoOf: map<int, int>)
    requires GiSoFar(g, giOf, g.feeders.Keys, g.nodes.Keys) && GdSoFar(g, gdOf, g.nodes.Keys)
    requires TrafoSoFar(g, trafoOf, gdOf.Keys)
    ensures FactsFit(g, Facts(giOf, gdOf, trafoOf))
  {
    hide IsRouteTrafo, IsNearest, NoneWithin;
  }

  lemma AllListsDistinct(g: Graph, x: Facts, lists: SlotLists, known: Known)
    requires Holds(g, x, lists, known)
    ensures AllDistinct(lists)
  {
  }

  lemma CustomersListed(g: Graph, x: Facts, lists: SlotLists, known: Known, counted: seq<int>)
    requires Holds(g, x, lists, known) && Lists(counted, KnownOf(known, Customer))
    ensures SameIds(counted, ListAt(lists, All(Customer)))
  {
    hide KnownOf;
  }
}
