/** The asset hierarchy: what is an asset, and which asset holds it. Substation, its transformer, feeder, distribution
    substation, its transformer, route, customer; assets without a place hang on one loose group under the root. */
module AssetForest {
  import opened Listings
  import opened AssetGraph

  datatype Kind = Root | Loose | GI | TrafoGI | FeederLine | Gardu | Trafo | Route | Customer

  datatype Ref = Ref(kind: Kind, id: int)

  const ROOT := Ref(Root, 0)
  const LOOSE := Ref(Loose, 0)

  /** What the index finds out on the way: the substation of a transformer, the distribution substation and the
      transformer of a route. */
  datatype Facts = Facts(giOf: map<int, int>, gdOf: map<int, int>, trafoOf: map<int, int>)

  /** Position in the hierarchy; the loose group comes before all levels. */
  function Rank(kind: Kind): nat {
    match kind
    case Root => 0
    case Loose => 1
    case GI => 2
    case TrafoGI => 3
    case FeederLine => 4
    case Gardu => 5
    case Trafo => 6
    case Route => 7
    case Customer => 8
  }

  predicate IsAsset(g: Graph, x: Facts, r: Ref) {
    match r.kind
    case Root => r.id == 0
    case Loose => r.id == 0
    case GI => HasType(g, r.id, GIType)
    case TrafoGI => HasType(g, r.id, TrafoGIType) || r.id in x.giOf
    case FeederLine => r.id in g.feeders
    case Gardu => HasType(g, r.id, GDType)
    case Trafo => HasType(g, r.id, TrafoType)
    case Route => r.id in x.gdOf
    case Customer => r.id in g.nodes && g.nodes[r.id].sink
  }

  function FeederParent(f: Feeder): Ref {
    if f.gi == 0 then LOOSE else if f.trafoGI != 0 then Ref(TrafoGI, f.trafoGI) else Ref(GI, f.gi)
  }

  function GarduParent(g: Graph, n: Node): Ref {
    if n.feeder in g.feeders then Ref(FeederLine, n.feeder) else LOOSE
  }

  function TrafoParent(n: Node): Ref {
    if n.gd != 0 then Ref(Gardu, n.gd) else LOOSE
  }

  function RouteParent(gd: int, trafo: int): Ref {
    if trafo != 0 then Ref(Trafo, trafo) else if gd != 0 then Ref(Gardu, gd) else LOOSE
  }

  function CustomerParent(n: Node): Ref {
    if n.route != 0 then Ref(Route, n.route)
    else if n.gd != 0 then Ref(Gardu, n.gd)
    else if n.feeder != 0 then Ref(FeederLine, n.feeder)
    else LOOSE
  }

  /** The one asset, or group, that holds an asset; a transformer without a substation has none. */
  function Parent(g: Graph, x: Facts, r: Ref): (p: Option<Ref>)
    ensures p.Some? ==> Rank(p.value.kind) < Rank(r.kind)
  {
    if !IsAsset(g, x, r) then None
    else
      match r.kind
      case Root => None
      case Loose => Some(ROOT)
      case GI => Some(ROOT)
      case TrafoGI => if r.id in x.giOf then Some(Ref(GI, x.giOf[r.id])) else None
      case FeederLine => Some(FeederParent(g.feeders[r.id]))
      case Gardu => Some(GarduParent(g, g.nodes[r.id]))
      case Trafo => Some(TrafoParent(g.nodes[r.id]))
      case Route => Some(RouteParent(x.gdOf[r.id], At(x.trafoOf, r.id)))
      case Customer => Some(CustomerParent(g.nodes[r.id]))
  }

  /** `r` lies below `top`. */
  predicate Below(g: Graph, x: Facts, r: Ref, top: Ref)
    decreases Rank(r.kind)
  {
    var p := Parent(g, x, r);
    p.Some? && (p.value == top || Below(g, x, p.value, top))
  }

  /** The way from the root down to `r`, as far as there is one. */
  function PathTo(g: Graph, x: Facts, r: Ref): seq<Ref>
    decreases Rank(r.kind)
  {
    var p := Parent(g, x, r);
    if p.None? || p.value == ROOT then [r] else PathTo(g, x, p.value) + [r]
  }

  // ------------------------------------------------------------------ what the index may find out

  /** The transformer at which a route starts: at one of its ends, or behind a rack there. */
  ghost predicate IsTrafoAtEnd(g: Graph, end: int, td: int) {
    if HasType(g, end, TrafoType) then td == end
    else if HasType(g, end, RakType) then IsNearest(g, end, TrafoType, 1, td)
    else td == 0
  }

  ghost predicate IsRouteTrafo(g: Graph, r: int, td: int) {
    if r !in g.edges then td == 0
    else
      var e := g.edges[r];
      if td != 0 then IsTrafoAtEnd(g, e.from, td) || (IsTrafoAtEnd(g, e.from, 0) && IsTrafoAtEnd(g, e.to, td))
      else IsTrafoAtEnd(g, e.from, 0) && IsTrafoAtEnd(g, e.to, 0)
  }

  predicate FedBy(g: Graph, h: int, t: int) {
    h in g.feeders && g.feeders[h].gi != 0 && g.feeders[h].trafoGI == t && t != 0
  }

  predicate OnRoute(g: Graph, n: int, r: int) {
    n in g.nodes && g.nodes[n].route == r && r != 0
  }

  /** The substation of a transformer is that of one of its feeders; without feeders, one within two hops. */
  ghost predicate GiFits(g: Graph, giOf: map<int, int>) {
    && (forall h, t :: FedBy(g, h, t) ==> t in giOf)
    && (forall t :: t in giOf ==>
          || (exists h :: FedBy(g, h, t) && g.feeders[h].gi == giOf[t])
          || ((forall h :: !FedBy(g, h, t)) && HasType(g, t, TrafoGIType) && giOf[t] != 0
            && IsNearest(g, t, GIType, 2, giOf[t])))
    && (forall t :: HasType(g, t, TrafoGIType) && t !in giOf ==> NoneWithin(g, t, GIType, 2))
  }

  /** The routes are those of the nodes; each has the distribution substation of one of its nodes, if any has one. */
  ghost predicate GdFits(g: Graph, gdOf: map<int, int>) {
    && (forall n, r :: OnRoute(g, n, r) ==> r in gdOf && (gdOf[r] == 0 ==> g.nodes[n].gd == 0))
    && (forall r :: r in gdOf ==> exists n :: OnRoute(g, n, r) && g.nodes[n].gd == gdOf[r])
  }

  ghost predicate TrafoFits(g: Graph, gdOf: map<int, int>, trafoOf: map<int, int>) {
    && trafoOf.Keys <= gdOf.Keys
    && (forall r :: r in gdOf ==> IsRouteTrafo(g, r, At(trafoOf, r)))
    && (forall r :: r in trafoOf ==> trafoOf[r] != 0)
  }

  ghost predicate FactsFit(g: Graph, x: Facts) {
    GiFits(g, x.giOf) && GdFits(g, x.gdOf) && TrafoFits(g, x.gdOf, x.trafoOf)
  }

  // ------------------------------------------------------------------ everything reached once

  /** The asset's place exists: its parent is an asset, and a transformer above it has a substation that exists. */
  predicate PlaceExists(g: Graph, x: Facts, r: Ref) {
    var p := Parent(g, x, r);
    && p.Some? && IsAsset(g, x, p.value)
    && (p.value.kind == TrafoGI ==> Parent(g, x, p.value).Some? && IsAsset(g, x, Parent(g, x, p.value).value))
  }

  predicate Placeable(g: Graph, x: Facts, r: Ref) {
    IsAsset(g, x, r) && Rank(r.kind) >= Rank(FeederLine)
  }

  lemma {:induction false} BelowHasPlace(g: Graph, x: Facts, r: Ref)
    requires Placeable(g, x, r) && Below(g, x, r, ROOT)
    ensures PlaceExists(g, x, r)
  {
    BelowIsAsset(g, x, r);
    var p := Parent(g, x, r).value;
    if p.kind == TrafoGI {
      BelowIsAsset(g, x, p);
    }
  }

  lemma {:induction false} BelowIsAsset(g: Graph, x: Facts, r: Ref)
    requires Below(g, x, r, ROOT)
    ensures IsAsset(g, x, r) && IsAsset(g, x, Parent(g, x, r).value)
  {
  }

  lemma {:induction false} PlacesReachRoot(g: Graph, x: Facts, r: Ref)
    requires Placeable(g, x, r) && forall a :: Placeable(g, x, a) ==> PlaceExists(g, x, a)
    ensures Below(g, x, r, ROOT)
    decreases Rank(r.kind)
  {
    assert PlaceExists(g, x, r);
    var p := Parent(g, x, r).value;
    if Placeable(g, x, p) { PlacesReachRoot(g, x, p); }
  }

  /** Every feeder, distribution substation, transformer, route and customer hangs below the root exactly when each of
      them has a place that exists. */
  lemma {:induction false} AllReachedIff(g: Graph, x: Facts)
    ensures (forall r :: Placeable(g, x, r) ==> Below(g, x, r, ROOT))
         <==> (forall r :: Placeable(g, x, r) ==> PlaceExists(g, x, r))
  {
    if forall r :: Placeable(g, x, r) ==> Below(g, x, r, ROOT) {
      forall r | Placeable(g, x, r) ensures PlaceExists(g, x, r) { BelowHasPlace(g, x, r); }
    }
    if forall r :: Placeable(g, x, r) ==> PlaceExists(g, x, r) {
      forall r | Placeable(g, x, r) ensures Below(g, x, r, ROOT) { PlacesReachRoot(g, x, r); }
    }
  }

  /** The path to an asset below the root starts under the root, goes from holder to held, and is the only such path. */
  ghost predicate IsPath(g: Graph, x: Facts, path: seq<Ref>, r: Ref) {
    && path != [] && path[|path| - 1] == r && Parent(g, x, path[0]) == Some(ROOT)
    && forall i :: 0 < i < |path| ==> Parent(g, x, path[i]) == Some(path[i - 1])
  }

  lemma {:induction false} PathIsUnique(g: Graph, x: Facts, path: seq<Ref>, r: Ref)
    requires IsPath(g, x, path, r)
    ensures path == PathTo(g, x, r)
    decreases |path|
  {
    if |path| > 1 {
      var init := path[..|path| - 1];
      assert Parent(g, x, r) == Some(init[|init| - 1]);
      if init[|init| - 1] == ROOT { assert Parent(g, x, init[|init| - 1]).None?; }
      PathIsUnique(g, x, init, init[|init| - 1]);
      assert path == init + [r];
    }
  }

  lemma {:induction false} PathLeadsThere(g: Graph, x: Facts, r: Ref)
    requires Below(g, x, r, ROOT)
    ensures IsPath(g, x, PathTo(g, x, r), r)
    decreases Rank(r.kind)
  {
    var p := Parent(g, x, r).value;
    if p != ROOT { PathLeadsThere(g, x, p); }
  }
}
