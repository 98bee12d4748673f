/** On a consistently grouped network the way to a feature is its path in the hierarchy, and the totals kept for an
    asset are those of the customers below it. */
module AssetLaws {
  import opened Listings
  import opened Orders
  import opened AssetGraph
  import opened AssetForest
  import opened AssetIndex
  import opened AssetBuild
  import opened AssetQueries

  // ------------------------------------------------------------------ consistent grouping

  /** Feeders start at nodes of no asset type of their own and come from a substation, through a transformer that
      belongs to one substation. */
  ghost predicate FeedersFit(g: Graph) {
    && (forall h :: h in g.feeders ==> HasType(g, h, OtherType) && !g.nodes[h].sink)
    && (forall h :: h in g.feeders && g.feeders[h].gi != 0 ==> HasType(g, g.feeders[h].gi, GIType))
    && (forall h :: h in g.feeders && g.feeders[h].trafoGI != 0 ==>
          g.feeders[h].gi != 0 && HasType(g, g.feeders[h].trafoGI, TrafoGIType))
    && (forall h, k :: h in g.feeders && k in g.feeders && g.feeders[h].trafoGI == g.feeders[k].trafoGI != 0 ==>
          g.feeders[h].gi == g.feeders[k].gi)
  }

  /** The members of a distribution substation share its feeder, the nodes of a route share its distribution
      substation, and feeders referred to exist. */
  ghost predicate NodesFit(g: Graph) {
    && (forall n :: n in g.nodes && g.nodes[n].feeder != 0 ==> g.nodes[n].feeder in g.feeders)
    && (forall n :: n in g.nodes && g.nodes[n].gd != 0 ==>
          HasType(g, g.nodes[n].gd, GDType) && g.nodes[g.nodes[n].gd].feeder == g.nodes[n].feeder)
    && (forall n :: n in g.nodes && g.nodes[n].route != 0 ==> g.nodes[n].gd != 0)
    && (forall m, n :: m in g.nodes && n in g.nodes && g.nodes[m].route == g.nodes[n].route != 0 ==>
          g.nodes[m].gd == g.nodes[n].gd)
  }

  /** The transformer of a route lies in the route's distribution substation. */
  ghost predicate RoutesFit(g: Graph, x: Facts) {
    forall r :: r in x.trafoOf && r in x.gdOf && HasType(g, x.trafoOf[r], TrafoType) ==>
      g.nodes[x.trafoOf[r]].gd == x.gdOf[r]
  }

  ghost predicate Consistent(g: Graph, x: Facts) {
    WellFormed(g) && FactsFit(g, x) && FeedersFit(g) && NodesFit(g) && RoutesFit(g, x)
  }

  // ------------------------------------------------------------------ paths, written out

  function Supply(g: Graph, f: Feeder): seq<Ref> {
    if f.gi == 0 then [LOOSE] else [Ref(GI, f.gi)] + (if f.trafoGI != 0 then [Ref(TrafoGI, f.trafoGI)] else [])
  }

  function UpToFeeder(g: Graph, h: int): seq<Ref> {
    if h in g.feeders then Supply(g, g.feeders[h]) + [Ref(FeederLine, h)] else [LOOSE]
  }

  function Step(kind: Kind, id: int): seq<Ref> {
    if id != 0 then [Ref(kind, id)] else []
  }

  /** The way to a customer or another node by its groups. */
  function UpToRoute(g: Graph, feeder: int, gd: int, trafo: int, route: int): seq<Ref> {
    UpToFeeder(g, feeder) + Step(Gardu, gd) + Step(Trafo, trafo) + Step(Route, route)
  }

  lemma TransformersSubstation(g: Graph, x: Facts, h: int)
    requires Consistent(g, x) && h in g.feeders && g.feeders[h].trafoGI != 0
    ensures g.feeders[h].trafoGI in x.giOf && x.giOf[g.feeders[h].trafoGI] == g.feeders[h].gi
  {
    hide HasType, IsNearest;
    assert FedBy(g, h, g.feeders[h].trafoGI);
  }

  lemma FeederPath(g: Graph, x: Facts, h: int)
    requires Consistent(g, x) && h in g.feeders
    ensures PathTo(g, x, Ref(FeederLine, h)) == UpToFeeder(g, h)
  {
    var f := g.feeders[h];
    if f.trafoGI != 0 { TransformersSubstation(g, x, h); }
    hide IsNearest, FactsFit, NodesFit, RoutesFit;
    assert PathTo(g, x, LOOSE) == [LOOSE];
    if f.gi != 0 {
      assert PathTo(g, x, Ref(GI, f.gi)) == [Ref(GI, f.gi)];
      if f.trafoGI != 0 {
        assert Parent(g, x, Ref(TrafoGI, f.trafoGI)) == Some(Ref(GI, f.gi));
        assert PathTo(g, x, Ref(TrafoGI, f.trafoGI)) == Supply(g, f);
      }
    }
  }

  lemma GarduPath(g: Graph, x: Facts, d: int)
    requires Consistent(g, x) && HasType(g, d, GDType)
    ensures PathTo(g, x, Ref(Gardu, d)) == UpToFeeder(g, g.nodes[d].feeder) + [Ref(Gardu, d)]
  {
    var h := g.nodes[d].feeder;
    if h in g.feeders { FeederPath(g, x, h); }
    hide Consistent;
    assert PathTo(g, x, LOOSE) == [LOOSE];
  }

  lemma TrafoPath(g: Graph, x: Facts, t: int)
    requires Consistent(g, x) && HasType(g, t, TrafoType) && g.nodes[t].gd != 0
    ensures var n := g.nodes[t]; PathTo(g, x, Ref(Trafo, t)) == UpToRoute(g, n.feeder, n.gd, t, 0)
  {
    var n := g.nodes[t];
    assert HasType(g, n.gd, GDType) && g.nodes[n.gd].feeder == n.feeder && t != 0;
    GarduPath(g, x, n.gd);
    hide Consistent, HasType;
  }

  lemma RouteFacts(g: Graph, x: Facts, r: int)
    requires Consistent(g, x) && r in x.gdOf
    ensures r != 0 && x.gdOf[r] != 0 && HasType(g, x.gdOf[r], GDType)
    ensures forall n :: n in g.nodes && g.nodes[n].route == r ==>
      g.nodes[n].gd == x.gdOf[r] && g.nodes[n].feeder == g.nodes[x.gdOf[r]].feeder
    ensures r in x.trafoOf ==>
      x.trafoOf[r] != 0 && HasType(g, x.trafoOf[r], TrafoType) && g.nodes[x.trafoOf[r]].gd == x.gdOf[r]
      && g.nodes[x.trafoOf[r]].feeder == g.nodes[x.gdOf[r]].feeder
  {
    hide GiFits, FeedersFit;
    var n :| OnRoute(g, n, r) && g.nodes[n].gd == x.gdOf[r];
    if r in x.trafoOf { assert IsRouteTrafo(g, r, x.trafoOf[r]); }
  }

  lemma RoutePath(g: Graph, x: Facts, r: int)
    requires Consistent(g, x) && r in x.gdOf
    ensures var gd := x.gdOf[r];
      gd in g.nodes && PathTo(g, x, Ref(Route, r)) == UpToRoute(g, g.nodes[gd].feeder, gd, At(x.trafoOf, r), r)
  {
    RouteFacts(g, x, r);
    GarduPath(g, x, x.gdOf[r]);
    if r in x.trafoOf { TrafoPath(g, x, x.trafoOf[r]); }
    hide Consistent, HasType;
  }

  lemma CustomerPath(g: Graph, x: Facts, v: int)
    requires Consistent(g, x) && v in g.nodes && g.nodes[v].sink
    ensures var n := g.nodes[v];
      PathTo(g, x, Ref(Customer, v))
        == UpToRoute(g, n.feeder, n.gd, At(x.trafoOf, n.route), n.route) + [Ref(Customer, v)]
  {
    var n := g.nodes[v];
    NoRouteNoTrafo(g, x);
    if n.route != 0 {
      assert OnRoute(g, v, n.route);
      RouteFacts(g, x, n.route);
      RoutePath(g, x, n.route);
    } else if n.gd != 0 {
      GarduPath(g, x, n.gd);
    } else if n.feeder != 0 {
      FeederPath(g, x, n.feeder);
    }
    assert n.gd != 0 ==> g.nodes[n.gd].feeder == n.feeder;
    hide Consistent, HasType;
    assert PathTo(g, x, LOOSE) == [LOOSE];
  }

  lemma NoRouteNoTrafo(g: Graph, x: Facts)
    requires Consistent(g, x)
    ensures At(x.trafoOf, 0) == 0 && 0 !in g.feeders && 0 !in g.nodes
  {
    if 0 in x.gdOf { RouteFacts(g, x, 0); }
  }

  // ------------------------------------------------------------------ where a feature hangs

  /** The assets upstream of one, as its row in a table shows them; 0 for none. */
  datatype Chain = Chain(gi: int, trafoGI: int, feeder: int, gd: int, trafo: int, route: int)

  const NOWHERE := Node(OtherType, false, false, 0, 0, 0, 0, 0)

  function NodeAt(g: Graph, id: int): Node {
    if id in g.nodes then g.nodes[id] else NOWHERE
  }

  /** The chain before the feeder's own supply is filled in, and the feeder to take it from. */
  function OwnChain(g: Graph, x: Facts, r: Ref): (Chain, int) {
    var n := NodeAt(g, r.id);
    match r.kind
    case Route =>
      var gd, trafo := At(x.gdOf, r.id), At(x.trafoOf, r.id);
      (Chain(0, 0, 0, gd, trafo, r.id),
       if gd != 0 then NodeAt(g, gd).feeder else if trafo != 0 then NodeAt(g, trafo).feeder else 0)
    case Customer => (Chain(0, 0, 0, n.gd, At(x.trafoOf, n.route), n.route), n.feeder)
    case Trafo => (Chain(0, 0, 0, n.gd, r.id, 0), n.feeder)
    case Gardu => (Chain(0, 0, 0, r.id, 0, 0), n.feeder)
    case FeederLine => (Chain(0, 0, 0, 0, 0, 0), r.id)
    case TrafoGI => (Chain(At(x.giOf, r.id), r.id, 0, 0, 0, 0), n.feeder)
    case GI => (Chain(r.id, 0, 0, 0, 0, 0), n.feeder)
    case _ => (Chain(0, 0, 0, 0, 0, 0), 0)
  }

  function ChainOf(g: Graph, x: Facts, r: Ref): Chain {
    var (own, feeder) := OwnChain(g, x, r);
    if feeder in g.feeders && r.kind != GI && r.kind != TrafoGI then
      own.(feeder := feeder, trafoGI := g.feeders[feeder].trafoGI, gi := g.feeders[feeder].gi)
    else own
  }

  /** The supply named in a row is that of the feeder, if there is such a feeder. */
  ghost predicate SuppliedBy(g: Graph, c: Chain, feeder: int) {
    if feeder in g.feeders then
      c.feeder == feeder && c.gi == g.feeders[feeder].gi && c.trafoGI == g.feeders[feeder].trafoGI
    else c.feeder == 0 && c.gi == 0 && c.trafoGI == 0
  }

  /** What the row of an asset names upstream. A customer: what its node names, and the transformer of its route. A
      route: its distribution substation and transformer, and the feeder of the first of them that it has. A
      transformer, a distribution substation, a feeder: what its node names. A transformer of a substation: that. */
  lemma {:induction false} ChainMeans(g: Graph, x: Facts, r: Ref)
    ensures var c, n := ChainOf(g, x, r), NodeAt(g, r.id);
      && (r.kind == Customer ==>
            c.gd == n.gd && c.route == n.route && c.trafo == At(x.trafoOf, n.route) && SuppliedBy(g, c, n.feeder))
      && (r.kind == Route ==>
            && c.route == r.id && c.gd == At(x.gdOf, r.id) && c.trafo == At(x.trafoOf, r.id)
            && (c.gd != 0 ==> SuppliedBy(g, c, NodeAt(g, c.gd).feeder))
            && (c.gd == 0 && c.trafo != 0 ==> SuppliedBy(g, c, NodeAt(g, c.trafo).feeder))
            && (c.gd == 0 && c.trafo == 0 ==> SuppliedBy(g, c, 0)))
      && (r.kind == Trafo ==> c.gd == n.gd && c.trafo == r.id && c.route == 0 && SuppliedBy(g, c, n.feeder))
      && (r.kind == Gardu ==> c.gd == r.id && c.trafo == 0 && c.route == 0 && SuppliedBy(g, c, n.feeder))
      && (r.kind == FeederLine ==> c.gd == 0 && c.trafo == 0 && c.route == 0 && SuppliedBy(g, c, r.id))
      && (r.kind == TrafoGI ==> c == Chain(At(x.giOf, r.id), r.id, 0, 0, 0, 0))
      && (r.kind == GI ==> c == Chain(r.id, 0, 0, 0, 0, 0))
  {
  }

  datatype Feature = AtNode(id: int) | AtEdge(id: int)

  /** The group a node that is no asset belongs to. */
  function GroupOf(n: Node): Option<Ref> {
    if n.route != 0 then Some(Ref(Route, n.route))
    else if n.gd != 0 then Some(Ref(Gardu, n.gd))
    else if n.feeder != 0 then Some(Ref(FeederLine, n.feeder))
    else None
  }

  /** The asset a feature is, or the nearest group it belongs to. */
  function Target(g: Graph, x: Facts, feat: Feature): Option<Ref> {
    match feat
    case AtEdge(id) =>
      if id in x.gdOf then Some(Ref(Route, id))
      else if id in g.edges then
        var a, b := NodeAt(g, g.edges[id].from), NodeAt(g, g.edges[id].to);
        GroupOf(if b.route != 0 || (b.gd != 0 && a.gd == 0) then b else a)
      else None
    case AtNode(id) =>
      if id !in g.nodes then None
      else if g.nodes[id].sink then Some(Ref(Customer, id))
      else
        match g.nodes[id].typ
        case GIType => Some(Ref(GI, id))
        case TrafoGIType => Some(Ref(TrafoGI, id))
        case GDType => Some(Ref(Gardu, id))
        case TrafoType => Some(Ref(Trafo, id))
        case _ => if id in g.feeders then Some(Ref(FeederLine, id)) else GroupOf(g.nodes[id])
  }

  function Push(path: seq<Ref>, target: Ref, kind: Kind, v: int): seq<Ref> {
    if v != 0 && Ref(kind, v) != target then path + [Ref(kind, v)] else path
  }

  /** A distribution transformer outside any distribution substation, but on a feeder: the tree has it on the loose
      group, the path goes through the feeder. */
  predicate StrayTrafo(g: Graph, r: Ref) {
    r.kind == Trafo && NodeAt(g, r.id).gd == 0 && NodeAt(g, r.id).feeder in g.feeders
  }

  /** The upper end of the way. */
  function Lead(it: Chain, kind: Kind): seq<Ref> {
    match kind
    case GI => []
    case TrafoGI => Step(GI, it.gi)
    case _ => if it.gi == 0 then [LOOSE] else [Ref(GI, it.gi)] + Step(TrafoGI, it.trafoGI)
  }

  function Further(path: seq<Ref>, longer: bool, more: seq<Ref>): seq<Ref> {
    if longer then path + more else path
  }

  /** The way written out from an asset's chain. */
  function ByChain(it: Chain, r: Ref): seq<Ref> {
    var depth := Rank(r.kind);
    var toFeeder := Further(Lead(it, r.kind), depth > Rank(FeederLine), Step(FeederLine, it.feeder));
    var toGardu := Further(toFeeder, depth > Rank(Gardu), Step(Gardu, it.gd));
    var toTrafo := Further(toGardu, depth > Rank(Trafo), Step(Trafo, it.trafo));
    Further(toTrafo, depth > Rank(Route), Step(Route, it.route)) + [r]
  }

  lemma PushIsStep(path: seq<Ref>, target: Ref, kind: Kind, v: int)
    requires kind != target.kind
    ensures Push(path, target, kind, v) == path + Step(kind, v)
  {
  }

  /** Pushes the asset's upstream assets, one by one, leaving out those that are missing and the asset itself. */
  method WriteOut(it: Chain, target: Ref) returns (path: seq<Ref>)
    requires IsLevel(target.kind)
    requires target.kind == GI ==> it.gi == target.id && it.trafoGI == 0
    requires target.kind == TrafoGI ==> it.trafoGI == target.id
    ensures path == ByChain(it, target)
  {
    path := WriteLead(it, target);
    hide Push, Step, Lead;
    if target.kind == Gardu || target.kind == Trafo || target.kind == Route || target.kind == Customer {
      PushIsStep(path, target, FeederLine, it.feeder);
      path := Push(path, target, FeederLine, it.feeder);
    }
    if target.kind == Trafo || target.kind == Route || target.kind == Customer {
      PushIsStep(path, target, Gardu, it.gd);
      path := Push(path, target, Gardu, it.gd);
    }
    if target.kind == Route || target.kind == Customer {
      PushIsStep(path, target, Trafo, it.trafo);
      path := Push(path, target, Trafo, it.trafo);
    }
    if target.kind == Customer {
      PushIsStep(path, target, Route, it.route);
      path := Push(path, target, Route, it.route);
    }
    path := path + [target];
  }

  method WriteLead(it: Chain, target: Ref) returns (path: seq<Ref>)
    requires IsLevel(target.kind)
    requires target.kind == GI ==> it.gi == target.id && it.trafoGI == 0
    requires target.kind == TrafoGI ==> it.trafoGI == target.id
    ensures path == Lead(it, target.kind)
  {
    path := [];
    if it.gi == 0 && target.kind != GI && target.kind != TrafoGI {
      path := [LOOSE];
    } else {
      path := Push(path, target, GI, it.gi);
      path := Push(path, target, TrafoGI, it.trafoGI);
    }
  }

  /** The way ends with the asset. On a consistent network it is the path from the root to it, if it hangs below the
      root, unless it is a stray transformer. */
  ghost predicate LeadsTo(g: Graph, x: Facts, path: seq<Ref>, r: Ref) {
    && path != [] && path[|path| - 1] == r
    && (Consistent(g, x) && (Placeable(g, x, r) || Below(g, x, r, ROOT)) ==>
          (IsPath(g, x, path, r) <==> !StrayTrafo(g, r)))
  }

  /** The way ends with the route, else the distribution substation, else the feeder of a node; it is empty if there is
      none. */
  ghost predicate LeadsToGroup(g: Graph, x: Facts, path: seq<Ref>, n: Node) {
    && (n.route != 0 ==> LeadsTo(g, x, path, Ref(Route, n.route)))
    && (n.route == 0 && n.gd != 0 ==> LeadsTo(g, x, path, Ref(Gardu, n.gd)))
    && (n.route == 0 && n.gd == 0 && n.feeder != 0 ==> LeadsTo(g, x, path, Ref(FeederLine, n.feeder)))
    && (n.route == 0 && n.gd == 0 && n.feeder == 0 ==> path == [])
  }

  /** The way to a node: to the node itself if it is a customer, a substation, a distribution substation, a transformer
      of one of them or the head of a feeder, else to its group. */
  ghost predicate LeadsToNode(g: Graph, x: Facts, path: seq<Ref>, id: int)
    requires id in g.nodes
  {
    var n := g.nodes[id];
    && (n.sink ==> LeadsTo(g, x, path, Ref(Customer, id)))
    && (!n.sink && n.typ == GIType ==> LeadsTo(g, x, path, Ref(GI, id)))
    && (!n.sink && n.typ == TrafoGIType ==> LeadsTo(g, x, path, Ref(TrafoGI, id)))
    && (!n.sink && n.typ == GDType ==> LeadsTo(g, x, path, Ref(Gardu, id)))
    && (!n.sink && n.typ == TrafoType ==> LeadsTo(g, x, path, Ref(Trafo, id)))
    && (!n.sink && n.typ !in {GIType, TrafoGIType, GDType, TrafoType} && id in g.feeders ==>
          LeadsTo(g, x, path, Ref(FeederLine, id)))
    && (!n.sink && n.typ !in {GIType, TrafoGIType, GDType, TrafoType} && id !in g.feeders ==>
          LeadsToGroup(g, x, path, n))
  }

  /** The way to a line: to the line itself if it is a route, else to the group of its end further downstream, which is
      the second if it has a route, or a distribution substation that the first has not. */
  ghost predicate LeadsToLine(g: Graph, x: Facts, path: seq<Ref>, id: int)
    requires id in g.edges
  {
    var a, b := NodeAt(g, g.edges[id].from), NodeAt(g, g.edges[id].to);
    if id in x.gdOf then LeadsTo(g, x, path, Ref(Route, id))
    else LeadsToGroup(g, x, path, if b.route != 0 || (a.gd == 0 && b.gd != 0) then b else a)
  }

  lemma {:induction false} LocatedLeads(g: Graph, x: Facts, r: Ref)
    requires IsLevel(r.kind) && (Consistent(g, x) ==> IsAsset(g, x, r))
    ensures LeadsTo(g, x, ByChain(ChainOf(g, x, r), r), r)
  {
    EndsThere(ChainOf(g, x, r), r);
    hide Consistent, PathTo, ByChain, ChainOf, IsPath, StrayTrafo, Below, IsAsset;
    var path := ByChain(ChainOf(g, x, r), r);
    if Consistent(g, x) && (Placeable(g, x, r) || Below(g, x, r, ROOT)) {
      LocatedIff(g, x, r);
      if Placeable(g, x, r) {
        forall a | Placeable(g, x, a) ensures PlaceExists(g, x, a) { ConsistentPlaces(g, x, a); }
        PlacesReachRoot(g, x, r);
      }
      PathLeadsThere(g, x, r);
      if IsPath(g, x, path, r) { PathIsUnique(g, x, path, r); }
    }
  }

  lemma EndsThere(it: Chain, r: Ref)
    ensures var path := ByChain(it, r); path != [] && path[|path| - 1] == r
  {
  }

  /** The way from the root to a feature: on a consistent network, the path of its asset in the tree, unless that is a
      stray transformer. */
  method AssetLocate(g: Graph, x: Facts, feat: Feature) returns (path: seq<Ref>)
    ensures Target(g, x, feat).None? ==> path == []
    ensures Target(g, x, feat).Some? ==> var r := Target(g, x, feat).value; path == ByChain(ChainOf(g, x, r), r)
    ensures Target(g, x, feat).Some? && Consistent(g, x) ==>
      (path == PathTo(g, x, Target(g, x, feat).value) <==> !StrayTrafo(g, Target(g, x, feat).value))
    ensures feat.AtNode? ==> if feat.id in g.nodes then LeadsToNode(g, x, path, feat.id) else path == []
    ensures feat.AtEdge? && feat.id in g.edges ==> LeadsToLine(g, x, path, feat.id)
    ensures feat.AtEdge? && feat.id !in g.edges && feat.id !in x.gdOf ==> path == []
  {
    hide Consistent, PathTo, ChainOf, StrayTrafo, Target, ByChain, IsAsset, LeadsTo, LeadsToNode, LeadsToLine;
    var found := Target(g, x, feat);
    if found.None? {
      TargetMeans(g, x, feat, []);
      return [];
    }
    var target := found.value;
    TargetIsLevel(g, x, feat);
    OwnIds(g, x, target);
    path := WriteOut(ChainOf(g, x, target), target);
    if Consistent(g, x) {
      TargetIsAsset(g, x, feat);
      LocatedIff(g, x, target);
    }
    LocatedLeads(g, x, target);
    TargetMeans(g, x, feat, path);
  }

  lemma {:induction false} TargetMeans(g: Graph, x: Facts, feat: Feature, path: seq<Ref>)
    requires if Target(g, x, feat).None? then path == [] else LeadsTo(g, x, path, Target(g, x, feat).value)
    ensures feat.AtNode? ==> if feat.id in g.nodes then LeadsToNode(g, x, path, feat.id) else path == []
    ensures feat.AtEdge? && feat.id in g.edges ==> LeadsToLine(g, x, path, feat.id)
    ensures feat.AtEdge? && feat.id !in g.edges && feat.id !in x.gdOf ==> path == []
  {
    hide LeadsTo;
  }

  lemma TargetIsLevel(g: Graph, x: Facts, feat: Feature)
    requires Target(g, x, feat).Some?
    ensures IsLevel(Target(g, x, feat).value.kind)
  {
  }

  /** The chain of a substation or its transformer names the asset itself. */
  lemma OwnIds(g: Graph, x: Facts, r: Ref)
    ensures r.kind == GI ==> ChainOf(g, x, r).gi == r.id && ChainOf(g, x, r).trafoGI == 0
    ensures r.kind == TrafoGI ==> ChainOf(g, x, r).trafoGI == r.id
  {
  }

  lemma TargetIsAsset(g: Graph, x: Facts, feat: Feature)
    requires Consistent(g, x) && Target(g, x, feat).Some?
    ensures var r := Target(g, x, feat).value; IsAsset(g, x, r) && IsLevel(r.kind)
  {
    RoutesKnown(g, x);
    hide FactsFit, RoutesFit, FeedersFit, WellFormed;
  }

  lemma RoutesKnown(g: Graph, x: Facts)
    requires Consistent(g, x)
    ensures forall n :: n in g.nodes && g.nodes[n].route != 0 ==> g.nodes[n].route in x.gdOf
  {
    hide GiFits, TrafoFits, FeedersFit, NodesFit, RoutesFit, WellFormed;
    forall n | n in g.nodes && g.nodes[n].route != 0 ensures g.nodes[n].route in x.gdOf {
      assert OnRoute(g, n, g.nodes[n].route);
    }
  }

  lemma SupplyByChain(g: Graph, x: Facts, r: Ref)
    requires 0 !in g.feeders && Rank(r.kind) > Rank(TrafoGI)
    ensures var (own, h), it := OwnChain(g, x, r), ChainOf(g, x, r);
      Lead(it, r.kind) + Step(FeederLine, it.feeder) == UpToFeeder(g, h)
      && it.gd == own.gd && it.trafo == own.trafo && it.route == own.route
  {
    var (own, h) := OwnChain(g, x, r);
    assert own.gi == 0 && own.trafoGI == 0 && own.feeder == 0;
    hide OwnChain;
  }

  /** The way below the feeder. */
  lemma LowerWay(it: Chain, r: Ref)
    ensures r.kind == Gardu ==> ByChain(it, r) == Lead(it, r.kind) + Step(FeederLine, it.feeder) + [r]
    ensures r.kind == Trafo ==>
      ByChain(it, r)
        == Lead(it, r.kind) + Step(FeederLine, it.feeder) + Step(Gardu, it.gd) + [r]
    ensures r.kind == Route ==>
      ByChain(it, r)
        == Lead(it, r.kind) + Step(FeederLine, it.feeder) + Step(Gardu, it.gd) + Step(Trafo, it.trafo) + [r]
    ensures r.kind == Customer ==>
      ByChain(it, r)
        == Lead(it, r.kind) + Step(FeederLine, it.feeder) + Step(Gardu, it.gd) + Step(Trafo, it.trafo)
                        + Step(Route, it.route) + [r]
  {
  }

  /** Written out from its chain, the way to an asset is its path in the tree, unless it is a stray transformer. */
  lemma {:induction false} LocatedIff(g: Graph, x: Facts, r: Ref)
    requires Consistent(g, x) && IsAsset(g, x, r) && IsLevel(r.kind)
    ensures ByChain(ChainOf(g, x, r), r) == PathTo(g, x, r) <==> !StrayTrafo(g, r)
  {
    NoRouteNoTrafo(g, x);
    match r.kind {
      case GI =>
      case TrafoGI => LocatedTrafoGI(g, x, r.id);
      case FeederLine =>
        FeederPath(g, x, r.id);
      case Gardu => LocatedGardu(g, x, r.id);
      case Trafo => LocatedTrafo(g, x, r.id);
      case Route => LocatedRoute(g, x, r.id);
      case Customer => LocatedCustomer(g, x, r.id);
    }
  }

  /** A substation 1, a feeder head 2, and a transformer 3 on the feeder but in no distribution substation. */
  function StrayNetwork(): Graph {
    Graph(map[1 := Node(GIType, false, true, 0, 0, 0, 0, 0), 2 := Node(OtherType, false, true, 2, 0, 0, 0, 0),
              3 := Node(TrafoType, false, true, 2, 0, 0, 0, 0)],
          map[], map[], map[2 := Feeder(1, 0)])
  }

  lemma StrayFacts()
    ensures FactsFit(StrayNetwork(), Facts(map[], map[], map[]))
  {
    hide IsNearest, NoneWithin, IsRouteTrafo;
  }

  lemma StrayGroups()
    ensures FeedersFit(StrayNetwork()) && NodesFit(StrayNetwork())
  {
  }

  /** The exception occurs on consistent networks. */
  lemma StrayTrafoExists()
    ensures var g, x, r := StrayNetwork(), Facts(map[], map[], map[]), Ref(Trafo, 3);
      Consistent(g, x) && Placeable(g, x, r) && StrayTrafo(g, r)
  {
    StrayFacts();
    StrayGroups();
    hide FactsFit, FeedersFit, NodesFit;
  }

  lemma LocatedTrafoGI(g: Graph, x: Facts, t: int)
    requires Consistent(g, x) && IsAsset(g, x, Ref(TrafoGI, t))
    ensures ByChain(ChainOf(g, x, Ref(TrafoGI, t)), Ref(TrafoGI, t)) == PathTo(g, x, Ref(TrafoGI, t))
  {
    if t in x.giOf {
      assert x.giOf[t] != 0 && HasType(g, x.giOf[t], GIType) by {
        if h :| FedBy(g, h, t) && g.feeders[h].gi == x.giOf[t] {
          assert HasType(g, g.feeders[h].gi, GIType);
        }
      }
      assert PathTo(g, x, Ref(GI, x.giOf[t])) == [Ref(GI, x.giOf[t])];
    }
  }

  lemma LocatedGardu(g: Graph, x: Facts, d: int)
    requires Consistent(g, x) && IsAsset(g, x, Ref(Gardu, d))
    ensures ByChain(ChainOf(g, x, Ref(Gardu, d)), Ref(Gardu, d)) == PathTo(g, x, Ref(Gardu, d))
  {
    NoRouteNoTrafo(g, x);
    GarduPath(g, x, d);
    SupplyByChain(g, x, Ref(Gardu, d));
    LowerWay(ChainOf(g, x, Ref(Gardu, d)), Ref(Gardu, d));
    hide Consistent, PathTo, ByChain, ChainOf, UpToFeeder, Step, Lead;
  }

  lemma StepIs(kind: Kind, id: int)
    ensures Step(kind, id) == if id != 0 then [Ref(kind, id)] else []
  {
  }

  lemma LooseTrafoPath(g: Graph, x: Facts, t: int)
    requires HasType(g, t, TrafoType) && g.nodes[t].gd == 0
    ensures PathTo(g, x, Ref(Trafo, t)) == [LOOSE, Ref(Trafo, t)]
  {
    assert PathTo(g, x, LOOSE) == [LOOSE];
  }

  lemma UpToFeederEnd(g: Graph, h: int)
    ensures var up := UpToFeeder(g, h);
      up != [] && (if h in g.feeders then up[|up| - 1] == Ref(FeederLine, h) else up == [LOOSE])
  {
  }

  lemma LocatedTrafo(g: Graph, x: Facts, t: int)
    requires Consistent(g, x) && IsAsset(g, x, Ref(Trafo, t))
    ensures ByChain(ChainOf(g, x, Ref(Trafo, t)), Ref(Trafo, t)) == PathTo(g, x, Ref(Trafo, t))
         <==> !StrayTrafo(g, Ref(Trafo, t))
  {
    NoRouteNoTrafo(g, x);
    var n := g.nodes[t];
    SupplyByChain(g, x, Ref(Trafo, t));
    LowerWay(ChainOf(g, x, Ref(Trafo, t)), Ref(Trafo, t));
    if n.gd != 0 {
      TrafoPath(g, x, t);
      StepIs(Trafo, t);
    } else {
      LooseTrafoPath(g, x, t);
      UpToFeederEnd(g, n.feeder);
    }
    StepIs(Gardu, 0);
    StepIs(Route, 0);
    hide Consistent, PathTo, ByChain, ChainOf, UpToFeeder, Step, Lead;
    var path := ByChain(ChainOf(g, x, Ref(Trafo, t)), Ref(Trafo, t));
    if n.gd == 0 {
      assert path == UpToFeeder(g, n.feeder) + [Ref(Trafo, t)];
      if n.feeder in g.feeders { assert path[|path| - 2] == Ref(FeederLine, n.feeder); }
    }
  }

  lemma LocatedRoute(g: Graph, x: Facts, r: int)
    requires Consistent(g, x) && IsAsset(g, x, Ref(Route, r))
    ensures ByChain(ChainOf(g, x, Ref(Route, r)), Ref(Route, r)) == PathTo(g, x, Ref(Route, r))
  {
    NoRouteNoTrafo(g, x);
    RouteFacts(g, x, r);
    RoutePath(g, x, r);
    SupplyByChain(g, x, Ref(Route, r));
    LowerWay(ChainOf(g, x, Ref(Route, r)), Ref(Route, r));
    StepIs(Route, r);
    hide Consistent, PathTo, ByChain, ChainOf, UpToFeeder, Step, Lead;
  }

  lemma LocatedCustomer(g: Graph, x: Facts, v: int)
    requires Consistent(g, x) && IsAsset(g, x, Ref(Customer, v))
    ensures ByChain(ChainOf(g, x, Ref(Customer, v)), Ref(Customer, v)) == PathTo(g, x, Ref(Customer, v))
  {
    NoRouteNoTrafo(g, x);
    CustomerPath(g, x, v);
    SupplyByChain(g, x, Ref(Customer, v));
    LowerWay(ChainOf(g, x, Ref(Customer, v)), Ref(Customer, v));
    hide Consistent, PathTo, ByChain, ChainOf, UpToFeeder, Step, Lead;
  }

  // ------------------------------------------------------------------ everything has its place

  lemma FeederHasPlace(g: Graph, x: Facts, h: int)
    requires Consistent(g, x) && h in g.feeders
    ensures PlaceExists(g, x, Ref(FeederLine, h))
  {
    if g.feeders[h].trafoGI != 0 { TransformersSubstation(g, x, h); }
    hide FactsFit, NodesFit, RoutesFit, WellFormed;
  }

  lemma GarduHasPlace(g: Graph, x: Facts, d: int)
    requires HasType(g, d, GDType)
    ensures PlaceExists(g, x, Ref(Gardu, d))
  {
  }

  lemma TrafoHasPlace(g: Graph, x: Facts, t: int)
    requires NodesFit(g) && HasType(g, t, TrafoType)
    ensures PlaceExists(g, x, Ref(Trafo, t))
  {
  }

  lemma RouteHasPlace(g: Graph, x: Facts, r: int)
    requires Consistent(g, x) && r in x.gdOf
    ensures PlaceExists(g, x, Ref(Route, r))
  {
    RouteFacts(g, x, r);
    hide Consistent;
  }

  lemma CustomerHasPlace(g: Graph, x: Facts, v: int)
    requires Consistent(g, x) && v in g.nodes && g.nodes[v].sink
    ensures PlaceExists(g, x, Ref(Customer, v))
  {
    RoutesKnown(g, x);
    hide FactsFit, RoutesFit, FeedersFit, WellFormed;
  }

  lemma {:induction false} ConsistentPlaces(g: Graph, x: Facts, r: Ref)
    requires Consistent(g, x) && Placeable(g, x, r)
    ensures PlaceExists(g, x, r)
  {
    hide FactsFit, RoutesFit, FeedersFit, WellFormed, NodesFit, PlaceExists, HasType;
    match r.kind {
      case FeederLine => FeederHasPlace(g, x, r.id);
      case Gardu => GarduHasPlace(g, x, r.id);
      case Trafo => TrafoHasPlace(g, x, r.id);
      case Route => RouteHasPlace(g, x, r.id);
      case Customer => CustomerHasPlace(g, x, r.id);
    }
  }

  /** The way to any feeder, distribution substation, transformer, route or customer is the one path in the tree that
      leads there from the root, unless it is a stray transformer. */
  lemma {:induction false} LocatedIsPath(g: Graph, x: Facts, r: Ref)
    requires Consistent(g, x) && Placeable(g, x, r)
    ensures IsPath(g, x, ByChain(ChainOf(g, x, r), r), r) <==> !StrayTrafo(g, r)
  {
    LocatedIff(g, x, r);
    forall a | Placeable(g, x, a) ensures PlaceExists(g, x, a) { ConsistentPlaces(g, x, a); }
    PlacesReachRoot(g, x, r);
    PathLeadsThere(g, x, r);
    hide Consistent, PathTo, ByChain, ChainOf, IsPath, StrayTrafo;
    if IsPath(g, x, ByChain(ChainOf(g, x, r), r), r) {
      PathIsUnique(g, x, ByChain(ChainOf(g, x, r), r), r);
    }
  }

  // ------------------------------------------------------------------ totals

  /** What lies above an asset is what stands before it on its path. */
  lemma {:induction false} AboveIsOnPath(g: Graph, x: Facts, r: Ref, a: Ref)
    requires a != ROOT
    ensures Below(g, x, r, a) <==> a in PathTo(g, x, r) && a != r
    decreases Rank(r.kind)
  {
    var p := Parent(g, x, r);
    if p.Some? {
      if p.value != ROOT { AboveIsOnPath(g, x, p.value, a); }
      OnPathRank(g, x, r, r);
      if p.value != ROOT && r in PathTo(g, x, p.value) { OnPathRank(g, x, p.value, r); }
    }
  }

  lemma {:induction false} OnPathRank(g: Graph, x: Facts, r: Ref, a: Ref)
    ensures a in PathTo(g, x, r) ==> Rank(a.kind) <= Rank(r.kind)
    decreases Rank(r.kind)
  {
    var p := Parent(g, x, r);
    if p.Some? && p.value != ROOT { OnPathRank(g, x, p.value, a); }
  }

  /** Which groups a customer lies below. */
  lemma CustomerBelow(g: Graph, x: Facts, v: int, a: Ref)
    requires Consistent(g, x) && v in g.nodes && g.nodes[v].sink && a.kind != Root && a.kind != Loose
    ensures var n := g.nodes[v];
      Below(g, x, Ref(Customer, v), a) <==> a.id != 0 && match a.kind
        case GI => n.feeder in g.feeders && g.feeders[n.feeder].gi == a.id
        case TrafoGI => n.feeder in g.feeders && g.feeders[n.feeder].trafoGI == a.id
        case FeederLine => n.feeder in g.feeders && n.feeder == a.id
        case Gardu => n.gd == a.id
        case Trafo => At(x.trafoOf, n.route) == a.id
        case Route => n.route == a.id
        case _ => false
  {
    var n := g.nodes[v];
    NoRouteNoTrafo(g, x);
    CustomerPath(g, x, v);
    AboveIsOnPath(g, x, Ref(Customer, v), a);
    assert n.feeder in g.feeders && g.feeders[n.feeder].trafoGI != 0 ==> g.feeders[n.feeder].gi != 0;
    hide Consistent, PathTo, Below, UpToRoute;
    OnTheWay(g, n.feeder, n.gd, At(x.trafoOf, n.route), n.route, a);
    var up := UpToRoute(g, n.feeder, n.gd, At(x.trafoOf, n.route), n.route);
    assert a in up + [Ref(Customer, v)] && a != Ref(Customer, v) <==> a in up && a.kind != Customer;
  }

  lemma OnTheWay(g: Graph, feeder: int, gd: int, trafo: int, route: int, a: Ref)
    requires a.kind != Root && a.kind != Loose && 0 !in g.feeders
    requires feeder in g.feeders && g.feeders[feeder].trafoGI != 0 ==> g.feeders[feeder].gi != 0
    ensures a in UpToRoute(g, feeder, gd, trafo, route) <==> a.id != 0 && match a.kind
        case GI => feeder in g.feeders && g.feeders[feeder].gi == a.id
        case TrafoGI => feeder in g.feeders && g.feeders[feeder].trafoGI == a.id
        case FeederLine => feeder in g.feeders && feeder == a.id
        case Gardu => gd == a.id
        case Trafo => trafo == a.id
        case Route => route == a.id
        case _ => false
  {
    StepMembers(Gardu, gd);
    StepMembers(Trafo, trafo);
    StepMembers(Route, route);
    hide Step;
  }

  lemma StepMembers(kind: Kind, id: int)
    ensures forall a :: a in Step(kind, id) <==> a == Ref(kind, id) && id != 0
  {
  }

  /** The groups of a customer are of the type their name says, so that none stands in for another. */
  ghost predicate TypedGroups(g: Graph, x: Facts, n: Node) {
    && (At(x.trafoOf, n.route) != 0 ==> HasType(g, At(x.trafoOf, n.route), TrafoType))
    && (n.gd != 0 ==> HasType(g, n.gd, GDType))
    && (n.feeder in g.feeders ==>
          && HasType(g, n.feeder, OtherType)
          && (g.feeders[n.feeder].trafoGI != 0 ==> HasType(g, g.feeders[n.feeder].trafoGI, TrafoGIType))
          && (g.feeders[n.feeder].gi != 0 ==> HasType(g, g.feeders[n.feeder].gi, GIType)))
  }

  lemma GroupsAreTyped(g: Graph, x: Facts, v: int)
    requires Consistent(g, x) && v in g.nodes
    ensures TypedGroups(g, x, g.nodes[v])
  {
    var n := g.nodes[v];
    if n.route in x.trafoOf {
      RouteOfTrafo(g, x, n.route);
      RouteFacts(g, x, n.route);
    }
    hide FactsFit, RoutesFit, WellFormed, HasType;
  }

  function TypeOf(kind: Kind): NodeType {
    match kind
    case GI => GIType
    case TrafoGI => TrafoGIType
    case Gardu => GDType
    case Trafo => TrafoType
    case _ => OtherType
  }

  /** Of the five shares of a customer at most the one named by the asset's kind goes to the asset. */
  lemma CreditByKind(g: Graph, x: Facts, n: Node, a: Ref, w: nat)
    requires TypedGroups(g, x, n) && a.id != 0 && HasType(g, a.id, TypeOf(a.kind))
    requires a.kind in {GI, TrafoGI, FeederLine, Gardu, Trafo}
    ensures CreditOf(g, x, n, a.id, w) == match a.kind
      case GI => if n.feeder in g.feeders && g.feeders[n.feeder].gi == a.id then w else 0
      case TrafoGI => if n.feeder in g.feeders && g.feeders[n.feeder].trafoGI == a.id then w else 0
      case FeederLine => if n.feeder in g.feeders && n.feeder == a.id then w else 0
      case Gardu => if n.gd == a.id then w else 0
      case _ => if At(x.trafoOf, n.route) == a.id then w else 0
  {
  }

  /** What a customer is credited to an asset with totals: all of it if it lies below, nothing otherwise. */
  lemma CreditIffBelow(g: Graph, x: Facts, v: int, a: Ref, m: Measure)
    requires Consistent(g, x) && v in g.nodes && g.nodes[v].sink
    requires IsAsset(g, x, a) && a.kind in {GI, TrafoGI, FeederLine, Gardu, Trafo}
    ensures Credit(g, x, a.id, m)(v) == if Below(g, x, Ref(Customer, v), a) then Weight(g.nodes[v], m) else 0
  {
    hide Below, Consistent, CreditOf, TypedGroups, HasType, Weight, IsAsset;
    CustomerBelow(g, x, v, a);
    GroupsAreTyped(g, x, v);
    AssetTypes(g, x, a);
    CreditByKind(g, x, g.nodes[v], a, Weight(g.nodes[v], m));
  }

  lemma RouteOfTrafo(g: Graph, x: Facts, r: int)
    requires Consistent(g, x) && r in x.trafoOf
    ensures r in x.gdOf
  {
  }

  /** On a consistent network assets with totals are nodes of the type of their kind. */
  lemma AssetTypes(g: Graph, x: Facts, a: Ref)
    requires Consistent(g, x) && IsAsset(g, x, a) && a.kind in {GI, TrafoGI, FeederLine, Gardu, Trafo}
    ensures a.id != 0 && HasType(g, a.id, TypeOf(a.kind))
  {
    hide IsNearest, NoneWithin, GdFits, TrafoFits, RoutesFit, NodesFit;
  }

  /** Summing over all, with nothing for those left out, is summing over those taken in. */
  lemma {:induction false} SumOfMembers(c: int -> nat, w: int -> nat, all: seq<int>, part: seq<int>)
    requires Distinct(all) && Distinct(part) && forall v :: v in part ==> v in all
    requires forall v :: v in all ==> c(v) == if v in part then w(v) else 0
    ensures Sum(c, all) == Sum(w, part)
    decreases |all|
  {
    if all == [] {
      if |part| > 0 {
        var v := SomeMember(part);
        assert false;
      }
    } else {
      var init, v := all[..|all| - 1], all[|all| - 1];
      SumSnoc(c, init, v);
      assert all == init + [v] && v in all;
      InitOf(all);
      if v in part {
        var k :| 0 <= k < |part| && part[k] == v;
        SumWithout(w, part, k);
        RestOf(part, k);
        var rest := part[..k] + part[k + 1..];
        hide Sum;
        forall u | u in rest ensures u in init { assert u in all; }
        forall u | u in init ensures c(u) == if u in rest then w(u) else 0 { assert u in all; }
        SumOfMembers(c, w, init, rest);
      } else {
        hide Sum;
        forall u | u in part ensures u in init { assert u in all; }
        forall u | u in init ensures c(u) == if u in part then w(u) else 0 { assert u in all; }
        SumOfMembers(c, w, init, part);
      }
    }
  }

  lemma InitOf(all: seq<int>)
    requires Distinct(all) && all != []
    ensures var init, v := all[..|all| - 1], all[|all| - 1];
      Distinct(init) && forall u :: u in init <==> u in all && u != v
  {
    RestOf(all, |all| - 1);
    assert all[..|all| - 1] + all[|all|..] == all[..|all| - 1];
  }

  lemma SumWithout(w: int -> nat, part: seq<int>, k: nat)
    requires k < |part|
    ensures Sum(w, part) == w(part[k]) + Sum(w, part[..k] + part[k + 1..])
  {
    hide Sum;
    var a, b := part[..k], part[k + 1..];
    assert part == (a + [part[k]]) + b;
    SumAppend(w, a + [part[k]], b);
    SumSnoc(w, a, part[k]);
    SumAppend(w, a, b);
  }

  function WeightAt(g: Graph, m: Measure): int -> nat {
    (v: int) => if v in g.nodes then Weight(g.nodes[v], m) else 0
  }

  /** The customers and the load kept for a substation, its transformer, a feeder, a distribution substation or its
      transformer are those of the customers below it in the tree. */
  lemma {:induction false} TotalsOfGroup(g: Graph, x: Facts, lists: SlotLists, stat: map<int, Totals>,
                                         routeStat: map<int, Totals>, a: Ref, below: seq<int>, m: Measure)
    requires Consistent(g, x) && Indexed(g, x, lists) && Summed(g, x, stat, routeStat, ListAt(lists, All(Customer)))
    requires IsAsset(g, x, a) && a.kind in {GI, TrafoGI, FeederLine, Gardu, Trafo}
    requires Distinct(below) && forall v :: v in below <==> Below(g, x, Ref(Customer, v), a)
    ensures Amount(TotalsAt(stat, a.id), m) == Sum(WeightAt(g, m), below)
  {
    hide Consistent, Credit, Below, Amount, TotalsAt;
    var all := ListAt(lists, All(Customer));
    forall v | v in all ensures Credit(g, x, a.id, m)(v) == if v in below then WeightAt(g, m)(v) else 0 {
      CreditIffBelow(g, x, v, a, m);
    }
    forall v | v in below ensures v in all { BelowListed(g, x, lists, v, a); }
    hide Indexed;
    SumOfMembers(Credit(g, x, a.id, m), WeightAt(g, m), all, below);
  }

  lemma BelowListed(g: Graph, x: Facts, lists: SlotLists, v: int, a: Ref)
    requires Indexed(g, x, lists) && Below(g, x, Ref(Customer, v), a)
    ensures v in ListAt(lists, All(Customer))
  {
  }

  /** The same for a route. */
  lemma {:induction false} TotalsOfRoute(g: Graph, x: Facts, lists: SlotLists, stat: map<int, Totals>,
                                         routeStat: map<int, Totals>, r: int, below: seq<int>, m: Measure)
    requires Consistent(g, x) && Indexed(g, x, lists) && Summed(g, x, stat, routeStat, ListAt(lists, All(Customer)))
    requires r in x.gdOf
    requires Distinct(below) && forall v :: v in below <==> Below(g, x, Ref(Customer, v), Ref(Route, r))
    ensures Amount(TotalsAt(routeStat, r), m) == Sum(WeightAt(g, m), below)
  {
    RouteFacts(g, x, r);
    hide Consistent, Below, Amount, TotalsAt;
    var all := ListAt(lists, All(Customer));
    forall v | v in all ensures RouteCredit(g, r, m)(v) == if v in below then WeightAt(g, m)(v) else 0 {
      CustomerBelow(g, x, v, Ref(Route, r));
    }
    forall v | v in below ensures v in all { BelowListed(g, x, lists, v, Ref(Route, r)); }
    hide Indexed;
    SumOfMembers(RouteCredit(g, r, m), WeightAt(g, m), all, below);
  }

  // ------------------------------------------------------------------ the finished index

  /** What a finished index keeps for a group is what the customers below it in the tree add up to; asking the index for
      those customers gives exactly them. */
  lemma {:induction false} IndexedTotals(g: Graph, idx: Index, a: Ref, below: seq<int>, m: Measure)
    requires WellFormed(g) && idx.Complete(g) && Consistent(g, idx.Found())
    requires IsAsset(g, idx.Found(), a) && a.kind in {GI, TrafoGI, FeederLine, Gardu, Trafo, Route}
    requires Distinct(below) && forall v :: v in below <==> Below(g, idx.Found(), Ref(Customer, v), a)
    ensures Amount(TotalsAt(if a.kind == Route then idx.routeStat else idx.stat, a.id), m) == Sum(WeightAt(g, m), below)
  {
    CompleteIsIndexed(g, idx);
    hide Consistent, Indexed, Below, Summed, FactsFit, Holds, KnowsAll;
    if a.kind == Route {
      TotalsOfRoute(g, idx.Found(), idx.lists, idx.stat, idx.routeStat, a.id, below, m);
    } else {
      TotalsOfGroup(g, idx.Found(), idx.lists, idx.stat, idx.routeStat, a, below, m);
    }
  }

  /** From the grouped network to one figure: build the index, list the customers below an asset, and find the stored
      total to be their sum, however the maps were visited. */
  method TotalOf(g: Graph, a: Ref, m: Measure) returns (total: nat, idx: Index, below: seq<int>)
    requires WellFormed(g) && a.kind in {GI, TrafoGI, FeederLine, Gardu, Trafo, Route}
    ensures fresh(idx) && idx.Complete(g)
    ensures Ascending(below) && forall v :: v in below <==> Below(g, idx.Found(), Ref(Customer, v), a)
    ensures Consistent(g, idx.Found()) && IsAsset(g, idx.Found(), a) ==> total == Sum(WeightAt(g, m), below)
  {
    hide Below, Consistent, FactsFit, Summed, Holds, KnowsAll, IsAsset, WellFormed;
    idx := new Index(g);
    idx.Build(g);
    CompleteIsIndexed(g, idx);
    below := AssetIDs(g, idx.Found(), idx.lists, Customer, a.kind, a.id);
    total := Amount(TotalsAt(if a.kind == Route then idx.routeStat else idx.stat, a.id), m);
    if Consistent(g, idx.Found()) && IsAsset(g, idx.Found(), a) {
      IndexedTotals(g, idx, a, below, m);
    }
  }
}
