/** Asking the asset hierarchy: the children of an asset, all assets of a level below it, and where a feature hangs. */
module AssetQueries {
  import opened Listings
  import opened Orders
  import opened AssetGraph
  import opened AssetForest
  import opened AssetIndex
  import opened AssetBuild

  /** The lists of a finished index. */
  ghost predicate Indexed(g: Graph, x: Facts, lists: SlotLists) {
    && (forall s :: Ascending(ListAt(lists, s)))
    && forall s, v :: v in ListAt(lists, s) <==> IsLevel(s.kind) && IsAsset(g, x, Ref(s.kind, v)) && Placed(g, x, s, v)
  }

  lemma CompleteIsIndexed(g: Graph, idx: Index)
    requires idx.Complete(g)
    ensures Indexed(g, idx.Found(), idx.lists)
  {
    hide KnownOf, IsAsset, Placed;
  }

  function Refs(kind: Kind, ids: seq<int>): (refs: seq<Ref>)
    ensures |refs| == |ids| && forall i :: 0 <= i < |ids| ==> refs[i] == Ref(kind, ids[i])
  {
    seq(|ids|, i requires 0 <= i < |ids| => Ref(kind, ids[i]))
  }

  /** The root and the loose group have no id of their own. */
  function Place(kind: Kind, id: int): Ref {
    if kind == Root then ROOT else if kind == Loose then LOOSE else Ref(kind, id)
  }

  /** What may hang under a kind of asset, in the order in which it is shown. */
  function ChildKinds(kind: Kind): seq<Kind> {
    match kind
    case Root => []
    case Loose => [FeederLine, Gardu, Trafo, Route, Customer]
    case GI => [TrafoGI, FeederLine]
    case TrafoGI => [FeederLine]
    case FeederLine => [Gardu, Customer]
    case Gardu => [Trafo, Route, Customer]
    case Trafo => [Route]
    case Route => [Customer]
    case Customer => []
  }

  /** `r` is shown under `p`: the loose group only when something is in it. */
  ghost predicate Shows(g: Graph, x: Facts, p: Ref, r: Ref) {
    Parent(g, x, r) == Some(p) && (r == LOOSE ==> exists o :: Parent(g, x, o) == Some(LOOSE))
  }

  /** `r` is filed under the asset `kind`, `id` by what it refers to: a feeder by its transformer, or its substation
      if it names none; a route by its transformer, or its distribution substation; a customer by its route, its
      distribution substation or its feeder, the first of them that it names; what refers to nothing that counts, in
      the loose group. */
  ghost predicate FiledUnder(g: Graph, x: Facts, kind: Kind, id: int, r: Ref) {
    match r.kind
    case Root => false
    case Loose => kind == Root && r.id == 0
    case GI => kind == Root && r.id in g.nodes && g.nodes[r.id].typ == GIType
    case TrafoGI => kind == GI && r.id in x.giOf && x.giOf[r.id] == id
    case FeederLine =>
      r.id in g.feeders && var f := g.feeders[r.id];
      (kind == TrafoGI && f.gi != 0 && f.trafoGI == id && id != 0)
      || (kind == GI && f.gi == id && id != 0 && f.trafoGI == 0) || (kind == Loose && f.gi == 0)
    case Gardu =>
      r.id in g.nodes && g.nodes[r.id].typ == GDType && var n := g.nodes[r.id];
      (kind == FeederLine && n.feeder == id && id in g.feeders) || (kind == Loose && n.feeder !in g.feeders)
    case Trafo =>
      r.id in g.nodes && g.nodes[r.id].typ == TrafoType && var n := g.nodes[r.id];
      (kind == Gardu && n.gd == id && id != 0) || (kind == Loose && n.gd == 0)
    case Route =>
      r.id in x.gdOf && var t := if r.id in x.trafoOf then x.trafoOf[r.id] else 0;
      (kind == Trafo && t == id && id != 0) || (kind == Gardu && t == 0 && x.gdOf[r.id] == id && id != 0)
      || (kind == Loose && t == 0 && x.gdOf[r.id] == 0)
    case Customer =>
      r.id in g.nodes && g.nodes[r.id].sink && var n := g.nodes[r.id];
      (kind == Route && n.route == id && id != 0) || (kind == Gardu && n.route == 0 && n.gd == id && id != 0)
      || (kind == FeederLine && n.route == 0 && n.gd == 0 && n.feeder == id && id != 0)
      || (kind == Loose && n.route == 0 && n.gd == 0 && n.feeder == 0)
  }

  lemma {:induction false} FiledMeans(g: Graph, x: Facts, kind: Kind, id: int, r: Ref)
    ensures Parent(g, x, r) == Some(Place(kind, id)) <==> FiledUnder(g, x, kind, id, r)
  {
  }

  /** What is shown under an asset is what is filed under it, but for an empty loose group. */
  lemma {:induction false} ShownMeans(g: Graph, x: Facts, kind: Kind, id: int, r: Ref)
    ensures Shows(g, x, Place(kind, id), r) <==>
      FiledUnder(g, x, kind, id, r) && (r == LOOSE ==> exists o :: FiledUnder(g, x, Loose, 0, o))
  {
    hide Parent, FiledUnder;
    FiledMeans(g, x, kind, id, r);
    forall o ensures Parent(g, x, o) == Some(LOOSE) <==> FiledUnder(g, x, Loose, 0, o) {
      FiledMeans(g, x, Loose, 0, o);
    }
  }

  /** The order in which children are shown: by level and then by id, the loose group last. */
  predicate ShownBefore(a: Ref, b: Ref) {
    a != LOOSE && (b == LOOSE || Rank(a.kind) < Rank(b.kind) || (a.kind == b.kind && a.id < b.id))
  }

  ghost predicate InOrder(refs: seq<Ref>) {
    forall i, j :: 0 <= i < j < |refs| ==> ShownBefore(refs[i], refs[j])
  }

  lemma InOrderIsDistinct(refs: seq<Ref>)
    requires InOrder(refs)
    ensures Distinct(refs)
  {
    forall i, j | 0 <= i < j < |refs| ensures refs[i] != refs[j] {
      assert ShownBefore(refs[i], refs[j]);
    }
  }

  /** The children of an asset, in order: each once, and nothing else. */
  method AssetChildren(ghost g: Graph, ghost x: Facts, lists: SlotLists, kind: Kind, id: int) returns (out: seq<Ref>)
    requires Indexed(g, x, lists)
    ensures forall r: Ref :: r in out <==> Shows(g, x, Place(kind, id), r)
    ensures InOrder(out) && Distinct(out)
    ensures forall r: Ref :: r in out <==>
      FiledUnder(g, x, kind, id, r) && (r == LOOSE ==> exists o :: FiledUnder(g, x, Loose, 0, o))
    ensures ShownByLevel(out)
  {
    out := ChildrenOf(g, x, lists, kind, id);
    hide Shows, FiledUnder;
    forall r: Ref ensures r in out <==>
      FiledUnder(g, x, kind, id, r) && (r == LOOSE ==> exists o :: FiledUnder(g, x, Loose, 0, o)) {
      ShownMeans(g, x, kind, id, r);
    }
    forall i, j | 0 <= i < j < |out|
      ensures LevelNo(out[i].kind) < LevelNo(out[j].kind) || (out[i].kind == out[j].kind && out[i].id < out[j].id)
    {
      assert out[i] in out && out[j] in out && ShownBefore(out[i], out[j]);
      OrderMeans(g, x, kind, id, out[i], out[j]);
    }
  }

  lemma OrderMeans(g: Graph, x: Facts, kind: Kind, id: int, a: Ref, b: Ref)
    requires FiledUnder(g, x, kind, id, a) && FiledUnder(g, x, kind, id, b) && ShownBefore(a, b)
    ensures LevelNo(a.kind) < LevelNo(b.kind) || (a.kind == b.kind && a.id < b.id)
  {
  }

  /** The places of the levels from the top. */
  function LevelNo(kind: Kind): nat {
    match kind
    case GI => 0
    case TrafoGI => 1
    case FeederLine => 2
    case Gardu => 3
    case Trafo => 4
    case Route => 5
    case Customer => 6
    case _ => 7
  }

  /** The higher level first, within a level the smaller id, and the loose group at the end. */
  ghost predicate ShownByLevel(refs: seq<Ref>) {
    forall i, j :: 0 <= i < j < |refs| ==>
      LevelNo(refs[i].kind) < LevelNo(refs[j].kind) || (refs[i].kind == refs[j].kind && refs[i].id < refs[j].id)
  }

  method ChildrenOf(ghost g: Graph, ghost x: Facts, lists: SlotLists, kind: Kind, id: int) returns (out: seq<Ref>)
    requires Indexed(g, x, lists)
    ensures forall r: Ref :: r in out <==> Shows(g, x, Place(kind, id), r)
    ensures InOrder(out) && Distinct(out)
  {
    out := [];
    if kind == Root {
      out := Refs(GI, ListAt(lists, All(GI)));
      var loose := AnyLoose(g, x, lists);
      RootChildren(g, x, lists, out, loose);
      if loose { out := out + [LOOSE]; }
      InOrderIsDistinct(out);
      return;
    }
    var kinds, p := ChildKinds(kind), Place(kind, id);
    hide Indexed, Parent;
    for i := 0 to |kinds|
      invariant forall r: Ref :: r in out <==> r.kind in kinds[..i] && Parent(g, x, r) == Some(p)
      invariant InOrder(out)
    {
      ChildrenListed(g, x, lists, p, kinds[i]);
      var more := Refs(kinds[i], ListAt(lists, Under(p, kinds[i])));
      KindsAscend(kind, i);
      Joined(g, x, p, kinds, i, out, more);
      out := out + more;
    }
    assert kinds[..|kinds|] == kinds;
    forall r: Ref ensures r in out <==> Shows(g, x, p, r) {
      OnlyTheseKinds(g, x, kind, id, r);
    }
    InOrderIsDistinct(out);
  }

  /** Something hangs on the loose group. */
  method AnyLoose(ghost g: Graph, ghost x: Facts, lists: SlotLists) returns (any: bool)
    requires Indexed(g, x, lists)
    ensures any <==> exists o :: Parent(g, x, o) == Some(LOOSE)
  {
    var kinds := ChildKinds(Loose);
    hide Indexed, Parent;
    any := false;
    for i := 0 to |kinds|
      invariant any <==> exists o: Ref :: o.kind in kinds[..i] && Parent(g, x, o) == Some(LOOSE)
    {
      ChildrenListed(g, x, lists, LOOSE, kinds[i]);
      var ids := ListAt(lists, Under(LOOSE, kinds[i]));
      assert kinds[..i + 1] == kinds[..i] + [kinds[i]];
      if ids != [] {
        assert Ref(kinds[i], ids[0]) in Refs(kinds[i], ids);
        any := true;
      }
    }
    assert kinds[..|kinds|] == kinds;
    forall o | Parent(g, x, o) == Some(LOOSE) ensures o.kind in kinds {
      OnlyTheseKinds(g, x, Loose, 0, o);
    }
  }

  lemma RefsMembers(kind: Kind, ids: seq<int>)
    requires Ascending(ids) && IsLevel(kind)
    ensures InOrder(Refs(kind, ids)) && forall r: Ref :: r in Refs(kind, ids) <==> r.kind == kind && r.id in ids
  {
    var refs := Refs(kind, ids);
    forall r: Ref | r.kind == kind && r.id in ids ensures r in refs {
      var i :| 0 <= i < |ids| && ids[i] == r.id;
      assert refs[i] == r;
    }
  }

  lemma ChildrenListed(g: Graph, x: Facts, lists: SlotLists, p: Ref, kind: Kind)
    requires Indexed(g, x, lists) && IsLevel(kind) && kind != GI
    ensures InOrder(Refs(kind, ListAt(lists, Under(p, kind))))
    ensures forall r: Ref ::
      r in Refs(kind, ListAt(lists, Under(p, kind))) <==> r.kind == kind && Parent(g, x, r) == Some(p)
  {
    var ids := ListAt(lists, Under(p, kind));
    RefsMembers(kind, ids);
    forall r: Ref | r.kind == kind ensures r.id in ids <==> Parent(g, x, r) == Some(p) {
      assert r == Ref(kind, r.id);
    }
  }

  lemma KindsAscend(kind: Kind, i: nat)
    requires i < |ChildKinds(kind)|
    ensures var kinds := ChildKinds(kind);
      IsLevel(kinds[i]) && forall k :: k in kinds[..i] ==> IsLevel(k) && Rank(k) < Rank(kinds[i])
  {
  }

  lemma Joined(g: Graph, x: Facts, p: Ref, kinds: seq<Kind>, i: nat, out: seq<Ref>, more: seq<Ref>)
    requires i < |kinds| && IsLevel(kinds[i]) && forall k :: k in kinds[..i] ==> IsLevel(k) && Rank(k) < Rank(kinds[i])
    requires InOrder(out) && InOrder(more)
    requires forall r: Ref :: r in out <==> r.kind in kinds[..i] && Parent(g, x, r) == Some(p)
    requires forall r: Ref :: r in more <==> r.kind == kinds[i] && Parent(g, x, r) == Some(p)
    ensures InOrder(out + more)
    ensures forall r: Ref :: r in out + more <==> r.kind in kinds[..i + 1] && Parent(g, x, r) == Some(p)
  {
    hide Parent;
    assert kinds[..i + 1] == kinds[..i] + [kinds[i]];
    forall a, b | 0 <= a < b < |out + more| ensures ShownBefore((out + more)[a], (out + more)[b]) {
      if a < |out| && b >= |out| {
        assert out[a] in out && more[b - |out|] in more;
      }
    }
  }

  lemma OnlyTheseKinds(g: Graph, x: Facts, kind: Kind, id: int, r: Ref)
    requires kind != Root
    ensures Parent(g, x, r) == Some(Place(kind, id)) ==> r.kind in ChildKinds(kind) && r != LOOSE
  {
  }

  lemma RootChildren(g: Graph, x: Facts, lists: SlotLists, gis: seq<Ref>, loose: bool)
    requires Indexed(g, x, lists) && gis == Refs(GI, ListAt(lists, All(GI)))
    requires loose <==> exists o :: Parent(g, x, o) == Some(LOOSE)
    ensures var out := if loose then gis + [LOOSE] else gis;
      InOrder(out) && forall r: Ref :: r in out <==> Shows(g, x, ROOT, r)
  {
    RefsMembers(GI, ListAt(lists, All(GI)));
    var out := if loose then gis + [LOOSE] else gis;
    forall r: Ref ensures r in out <==> Shows(g, x, ROOT, r) {
      assert r.kind == GI ==> r == Ref(GI, r.id);
      assert Parent(g, x, LOOSE) == Some(ROOT);
    }
  }

  // ------------------------------------------------------------------ all assets of a level

  predicate AtOrBelow(g: Graph, x: Facts, r: Ref, top: Ref) {
    r == top || Below(g, x, r, top)
  }

  lemma {:induction false} BelowRank(g: Graph, x: Facts, r: Ref, top: Ref)
    requires Below(g, x, r, top)
    ensures Rank(top.kind) < Rank(r.kind)
    decreases Rank(r.kind)
  {
    var p := Parent(g, x, r).value;
    if p != top { BelowRank(g, x, p, top); }
  }

  /** Of two assets above a third, one is above the other. */
  lemma {:induction false} Comparable(g: Graph, x: Facts, r: Ref, a: Ref, b: Ref)
    requires AtOrBelow(g, x, r, a) && AtOrBelow(g, x, r, b)
    ensures AtOrBelow(g, x, a, b) || AtOrBelow(g, x, b, a)
    decreases Rank(r.kind)
  {
    if r != a && r != b {
      Comparable(g, x, Parent(g, x, r).value, a, b);
    }
  }

  /** Nothing lies below two children of one asset. */
  lemma SiblingsApart(g: Graph, x: Facts, r: Ref, a: Ref, b: Ref)
    requires AtOrBelow(g, x, r, a) && AtOrBelow(g, x, r, b)
    requires Parent(g, x, a).Some? && Parent(g, x, a) == Parent(g, x, b)
    ensures a == b
  {
    Comparable(g, x, r, a, b);
    if a != b {
      var p := Parent(g, x, a).value;
      if Below(g, x, a, b) { if p != b { BelowRank(g, x, p, b); } } else { if p != a { BelowRank(g, x, p, a); } }
    }
  }

  /** What lies below an asset lies at or below one of its children. */
  lemma {:induction false} BelowThroughChild(g: Graph, x: Facts, r: Ref, p: Ref) returns (c: Ref)
    requires Below(g, x, r, p) && r != LOOSE
    ensures Shows(g, x, p, c) && AtOrBelow(g, x, r, c)
    decreases Rank(r.kind)
  {
    var q := Parent(g, x, r).value;
    if q == p {
      c := r;
    } else if q == LOOSE {
      c := LOOSE;
      assert Shows(g, x, p, LOOSE);
    } else {
      c := BelowThroughChild(g, x, q, p);
    }
  }

  /** The other way round. */
  lemma {:induction false} ChildrenAreBelow(g: Graph, x: Facts, r: Ref, c: Ref, p: Ref)
    requires Parent(g, x, c) == Some(p) && AtOrBelow(g, x, r, c)
    ensures Below(g, x, r, p)
    decreases Rank(r.kind)
  {
    if r != c && Parent(g, x, r).value != c { ChildrenAreBelow(g, x, Parent(g, x, r).value, c, p); }
  }

  /** Depth among the levels; -1 for what is no level. */
  function Depth(kind: Kind): int {
    if IsLevel(kind) then Rank(kind) - 2 else -1
  }

  /** What of the level hangs at or below the first children. */
  ghost predicate Collected(g: Graph, x: Facts, level: Kind, children: seq<Ref>, k: nat, out: seq<int>)
    requires k <= |children|
  {
    Distinct(out) && forall v :: v in out <==> exists j :: 0 <= j < k && AtOrBelow(g, x, Ref(level, v), children[j])
  }

  /** One more child: `more` is what of the level hangs at or below it. */
  lemma CollectedMore(g: Graph, x: Facts, level: Kind, p: Ref, children: seq<Ref>, k: nat, out: seq<int>,
                      more: seq<int>)
    requires k < |children| && Collected(g, x, level, children, k, out) && Distinct(children) && Distinct(more)
    requires forall j :: 0 <= j < |children| ==> Parent(g, x, children[j]) == Some(p)
    requires forall v :: v in more <==> AtOrBelow(g, x, Ref(level, v), children[k])
    ensures Collected(g, x, level, children, k + 1, out + more)
  {
    hide AtOrBelow;
    forall a, b | 0 <= a < |out| && 0 <= b < |more| ensures out[a] != more[b] {
      if out[a] == more[b] {
        var v := out[a];
        assert v in out && v in more;
        var j :| 0 <= j < k && AtOrBelow(g, x, Ref(level, v), children[j]);
        SiblingsApart(g, x, Ref(level, v), children[j], children[k]);
        assert false;
      }
    }
  }

  /** A child that need not be descended into: it is of the level itself, or nothing of the level hangs below it. */
  lemma ChildSettled(g: Graph, x: Facts, level: Kind, c: Ref, v: int)
    requires Parent(g, x, c).Some?
      && (c.kind == level || (Depth(c.kind) >= Depth(level) && (IsLevel(level) || c != LOOSE)))
    ensures AtOrBelow(g, x, Ref(level, v), c) <==> c == Ref(level, v)
  {
    if Below(g, x, Ref(level, v), c) { BelowRank(g, x, Ref(level, v), c); }
  }

  lemma AllCollected(g: Graph, x: Facts, level: Kind, p: Ref, children: seq<Ref>, out: seq<int>)
    requires Collected(g, x, level, children, |children|, out) && (IsLevel(level) || p != ROOT)
    requires forall c :: c in children <==> Shows(g, x, p, c)
    ensures Distinct(out) && forall v :: v in out <==> Below(g, x, Ref(level, v), p)
  {
    hide AtOrBelow, Parent, Below;
    forall v ensures v in out <==> Below(g, x, Ref(level, v), p) {
      if v in out {
        var j :| 0 <= j < |children| && AtOrBelow(g, x, Ref(level, v), children[j]);
        assert children[j] in children;
        ChildrenAreBelow(g, x, Ref(level, v), children[j], p);
      }
      if Below(g, x, Ref(level, v), p) {
        if Ref(level, v) == LOOSE { LooseOnlyUnderRoot(g, x, p); }
        var c := BelowThroughChild(g, x, Ref(level, v), p);
        assert c in children;
      }
    }
  }

  lemma LooseOnlyUnderRoot(g: Graph, x: Facts, p: Ref)
    requires Below(g, x, LOOSE, p)
    ensures p == ROOT
  {
  }

  lemma OtherLevel(g: Graph, x: Facts, level: Kind, c: Ref, v: int)
    requires c.kind != level
    ensures AtOrBelow(g, x, Ref(level, v), c) <==> Below(g, x, Ref(level, v), c)
  {
    hide Below;
  }

  lemma ChildFacts(g: Graph, x: Facts, c: Ref, p: Ref)
    requires Parent(g, x, c) == Some(p)
    ensures Rank(p.kind) < Rank(c.kind) && c.kind != Root && c == Place(c.kind, c.id) && (c == LOOSE ==> p == ROOT)
  {
  }

  /** Walks down from an asset, and no deeper than the level asked for. */
  method Walk(ghost g: Graph, ghost x: Facts, lists: SlotLists, kind: Kind, id: int, level: Kind)
    returns (out: seq<int>)
    requires Indexed(g, x, lists) && (IsLevel(level) || kind != Root)
    ensures Distinct(out) && forall v :: v in out <==> Below(g, x, Ref(level, v), Place(kind, id))
    decreases 8 - Rank(kind)
  {
    hide Indexed, Parent, Below, AtOrBelow;
    ghost var p := Place(kind, id);
    var children := AssetChildren(g, x, lists, kind, id);
    forall j | 0 <= j < |children| ensures Parent(g, x, children[j]) == Some(p) {
      assert children[j] in children;
    }
    out := [];
    for i := 0 to |children|
      invariant Collected(g, x, level, children, i, out)
    {
      var c := children[i];
      ChildFacts(g, x, c, p);
      var more: seq<int> := [];
      if c.kind == level {
        more := [c.id];
      } else if Depth(c.kind) < Depth(level) {
        more := Walk(g, x, lists, c.kind, c.id, level);
      }
      forall v ensures v in more <==> AtOrBelow(g, x, Ref(level, v), c) {
        if c.kind == level || Depth(c.kind) >= Depth(level) { ChildSettled(g, x, level, c, v); }
        else { OtherLevel(g, x, level, c, v); }
      }
      CollectedMore(g, x, level, p, children, i, out, more);
      out := out + more;
    }
    AllCollected(g, x, level, p, children, out);
  }

  /** All assets of a level, in the whole network or below one asset, in ascending order. */
  method AssetIDs(ghost g: Graph, ghost x: Facts, lists: SlotLists, level: Kind, scopeKind: Kind, scopeID: int)
    returns (out: seq<int>)
    requires Indexed(g, x, lists)
    ensures scopeKind == Root ==> forall v :: v in out <==> IsLevel(level) && IsAsset(g, x, Ref(level, v))
    ensures scopeKind != Root && scopeKind == level ==> out == [scopeID]
    ensures scopeKind != Root && scopeKind != level ==>
      forall v :: v in out <==> Below(g, x, Ref(level, v), Place(scopeKind, scopeID))
    ensures Ascending(out)
  {
    hide Below, IsAsset;
    if scopeKind == Root {
      out := ListAt(lists, All(level));
    } else if scopeKind == level {
      out := [scopeID];
    } else {
      hide Indexed;
      out := Walk(g, x, lists, scopeKind, scopeID, level);
      out := SortIds(out);
    }
  }
}
