/** The network in memory under maneuvers: positions, hop distances and what is energised, brought up to date step by
    step instead of being computed anew. */
module Grid {
  import opened Listings
  import opened Network
  import opened Distances
  import opened Relaxing
  import opened Reseeding

  /** Where relaxing starts after a closing, and what an update always looks at. */
  function EndsOf(net: Network, t: Target): seq<int>
    requires CheckTarget(net, t).None?
  {
    match t
    case Cut(e) => [net.lines[e].from, net.lines[e].to]
    case Device(n) => [n]
    case Way(n, e) => [n, net.lines[e].Other(n)]
  }

  /** The nodes that count as sources after a maneuver. An opening takes away a source that is no switch; a closing
      adds an end that is a source in service and had no distance. */
  ghost function NextSources(net: Network, pos: Position, sources: set<int>, dist: map<int, int>, t: Target, open: bool)
    : set<int>
    requires CheckTarget(net, t).None?
  {
    if IsOpen(pos, t) == open then sources
    else if open then
      if t.Device? && !net.nodes[t.id].switch then sources - {t.id} else sources
    else
      var pos' := Place(pos, t, false);
      sources + set s | s in EndsOf(net, t) && s !in dist && Seed(net, pos', s)
  }

  lemma NotBlocked(net: Network, pos: Position, sources: set<int>, dist: map<int, int>, n: int)
    requires Labelled(net, pos, sources, dist) && n in dist
    ensures !Blocked(net, pos, n)
  {
    if n !in sources {
      assert Backed(net, pos, dist, n);
    }
  }

  // ------------------------------------------------------------------ openings

  /** The end, if any, that hangs from the other one along a line. */
  function Hanging(net: Network, pos: Position, dist: map<int, int>, e: int, a: int, b: int): seq<int> {
    if !Passable(net, pos, e, a, b) || a !in dist || b !in dist then []
    else if dist[b] == dist[a] + 1 && a !in pos.open then [b]
    else if dist[a] == dist[b] + 1 && b !in pos.open then [a]
    else []
  }

  /** The neighbours one hop further than an open switch. */
  method Further(net: Network, pos: Position, dist: map<int, int>, n: int) returns (roots: seq<int>)
    requires net.Valid() && n in dist
    ensures forall b :: b in roots <==> LeadsOn(net, pos, dist, n, b)
  {
    hide LeadsOn;
    roots := [];
    var lines := LinesAt(net, n);
    while lines != {}
      invariant lines <= LinesAt(net, n)
      invariant forall b :: b in roots ==> LeadsOn(net, pos, dist, n, b)
      invariant forall e, b :: Passable(net, pos, e, n, b) && e !in lines && b in dist && dist[b] == dist[n] + 1 ==>
        b in roots
      decreases lines
    {
      var e := Pick(lines);
      lines := lines - {e};
      var nb := net.lines[e].Other(n);
      if Passable(net, pos, e, n, nb) && nb in dist && dist[nb] == dist[n] + 1 {
        NowLeads(net, pos, dist, n, nb, e);
        roots := roots + [nb];
      }
    }
    forall b | LeadsOn(net, pos, dist, n, b) ensures b in roots {
      LeadsAlong(net, pos, dist, n, b);
    }
  }

  lemma NowLeads(net: Network, pos: Position, dist: map<int, int>, a: int, b: int, e: int)
    requires a in dist && b in dist && dist[b] == dist[a] + 1 && Passable(net, pos, e, a, b)
    ensures LeadsOn(net, pos, dist, a, b)
  {
  }

  /** Everything with a distance is fed as before, or by the element that is now open. */
  ghost predicate FedOrRooted(net: Network, pos: Position, pos': Position, dist: map<int, int>, roots: set<int>) {
    forall p, x :: p in dist && x in dist && dist[p] + 1 == dist[x] && Feeds(net, pos, p, x) ==>
      x in roots || StillLeads(net, pos', roots, p, x)
  }

  lemma OpenedIf(net: Network, pos: Position, pos': Position, sources: set<int>, dist: map<int, int>, roots: set<int>,
                 sources': set<int>)
    requires Exact(net, pos, sources, dist) && FewerOpen(pos, pos') && roots <= dist.Keys
    requires sources' <= sources && (forall z :: z in sources && z !in sources' ==> z in roots) && roots !! sources'
    requires forall z :: z in sources' ==> !Blocked(net, pos', z)
    requires FedOrRooted(net, pos, pos', dist, roots)
    ensures Opened(net, pos', sources', dist, roots)
  {
    hide StillLeads, Blocked, Feeds;
    forall a, b | a in dist && Feeds(net, pos', a, b) ensures Relaxed(dist, a, b) {
      FewerFeed(net, pos, pos', a, b);
    }
    forall x | x in dist && x !in sources' ensures Rooted(net, pos', dist, roots, x) {
      if x !in roots {
        assert Backed(net, pos, dist, x);
        var p :| p in dist && dist[p] + 1 == dist[x] && Feeds(net, pos, p, x);
        assert StillLeads(net, pos', roots, p, x);
      }
    }
  }

  lemma FewerFeed(net: Network, less: Position, more: Position, a: int, b: int)
    requires FewerOpen(less, more) && Feeds(net, more, a, b)
    ensures Feeds(net, less, a, b)
  {
    var e :| Conducts(net, more, e, a, b);
    assert Conducts(net, less, e, a, b);
  }

  lemma SourcesAre(net: Network, pos: Position, sources: set<int>, dist: map<int, int>)
    requires Labelled(net, pos, sources, dist)
    ensures sources <= dist.Keys <= net.nodes.Keys
    ensures forall n :: n in dist ==> dist[n] >= 0 && (dist[n] == 0 <==> n in sources)
    ensures forall n :: n in sources ==> !Blocked(net, pos, n)
  {
  }

  /** Along a line that does not let power pass any more, only what hung from its other end is left without it. */
  lemma LineOpened(net: Network, pos: Position, pos': Position, sources: set<int>, dist: map<int, int>, e: int, a: int,
                   b: int)
    requires net.Valid() && Exact(net, pos, sources, dist) && e in net.lines && net.lines[e].Touches(a)
    requires net.lines[e].Other(a) == b && pos'.open == pos.open && FewerOpen(pos, pos')
    requires forall f, x, y :: Passable(net, pos, f, x, y) && f != e ==> Passable(net, pos', f, x, y)
    ensures Opened(net, pos', sources, dist, Members(Hanging(net, pos, dist, e, a, b)))
  {
    SourcesAre(net, pos, sources, dist);
    var roots := Members(Hanging(net, pos, dist, e, a, b));
    forall p, x | p in dist && x in dist && dist[p] + 1 == dist[x] && Feeds(net, pos, p, x)
      ensures x in roots || StillLeads(net, pos', roots, p, x)
    {
      var f :| Conducts(net, pos, f, p, x);
      if f == e {
        PassableBothWays(net, pos, e, p, x);
        assert (p, x) == (a, b) || (p, x) == (b, a);
      } else {
        assert Passable(net, pos, f, p, x);
        assert Conducts(net, pos', f, p, x);
      }
    }
    OpenedIf(net, pos, pos', sources, dist, roots, sources);
  }

  lemma ObjectOpened(net: Network, pos: Position, sources: set<int>, dist: map<int, int>, n: int)
    requires Exact(net, pos, sources, dist) && n in net.nodes && !net.nodes[n].switch
    ensures Opened(net, Place(pos, Device(n), true), sources - {n}, dist, if n in dist then {n} else {})
  {
    SourcesAre(net, pos, sources, dist);
    var pos' := Place(pos, Device(n), true);
    var roots := if n in dist then {n} else {};
    forall p, x | p in dist && x in dist && dist[p] + 1 == dist[x] && Feeds(net, pos, p, x)
      ensures x in roots || StillLeads(net, pos', roots, p, x)
    {
      var f :| Conducts(net, pos, f, p, x);
      assert Passable(net, pos', f, p, x);
      if p != n && x != n { assert Conducts(net, pos', f, p, x); }
    }
    OpenedIf(net, pos, pos', sources, dist, roots, sources - {n});
  }

  lemma SwitchOpened(net: Network, pos: Position, sources: set<int>, dist: map<int, int>, n: int, roots: set<int>)
    requires Exact(net, pos, sources, dist) && n in net.nodes && net.nodes[n].switch
    requires forall b :: b in roots <==> n in dist && LeadsOn(net, pos, dist, n, b)
    ensures Opened(net, Place(pos, Device(n), true), sources, dist, roots)
  {
    SourcesAre(net, pos, sources, dist);
    var pos' := Place(pos, Device(n), true);
    forall p, x | p in dist && x in dist && dist[p] + 1 == dist[x] && Feeds(net, pos, p, x)
      ensures x in roots || StillLeads(net, pos', roots, p, x)
    {
      var f :| Conducts(net, pos, f, p, x);
      assert Passable(net, pos, f, p, x);
      if p == n {
        NowLeads(net, pos, dist, n, x, f);
      } else {
        assert Conducts(net, pos', f, p, x);
      }
    }
    forall z | z in sources ensures !Blocked(net, pos', z) {
    }
    forall b | b in roots ensures b in dist && b !in sources {
      LeadsAlong(net, pos, dist, n, b);
    }
    OpenedIf(net, pos, pos', sources, dist, roots, sources);
  }

  // ------------------------------------------------------------------ closings

  lemma ClosedSupports(net: Network, pos: Position, pos': Position, sources: set<int>, dist: map<int, int>,
                       more: set<int>)
    requires Exact(net, pos, sources, dist) && FewerOpen(pos', pos) && more !! dist.Keys
    requires forall s :: s in more ==> Seed(net, pos', s)
    ensures Supported(net, pos', sources + more, dist)
  {
    SourcesAre(net, pos, sources, dist);
    hide Feeds, Labelled;
    forall n | n in dist && n !in sources + more ensures Above(net, pos', dist, n) {
      var a := OneBack(net, pos, sources, dist, n);
      FewerFeed(net, pos', pos, a, n);
    }
  }

  /** A step that a closing makes possible starts at one of its ends, or goes to one that had no distance. */
  ghost predicate NewSteps(net: Network, pos: Position, pos': Position, dist: map<int, int>, ends: set<int>) {
    forall a, b :: a in dist && Feeds(net, pos', a, b) ==>
      Feeds(net, pos, a, b) || a in ends || (b in ends && b !in dist)
  }

  lemma SeedingIf(net: Network, pos: Position, pos': Position, sources: set<int>, dist: map<int, int>, ends: set<int>,
                  more: set<int>)
    requires Exact(net, pos, sources, dist) && FewerOpen(pos', pos) && NewSteps(net, pos, pos', dist, ends)
    requires ends <= net.nodes.Keys && more == set s | s in ends && s !in dist && Seed(net, pos', s)
    ensures Seeding(net, pos', sources + more, dist, multiset{}, ends)
  {
    SourcesAre(net, pos, sources, dist);
    ClosedSupports(net, pos, pos', sources, dist, more);
    hide Feeds, Supported, Labelled, Seed;
    forall a, b | a in dist && Feeds(net, pos', a, b) ensures Due(dist, multiset{}, ends, a, b) {
      if Feeds(net, pos, a, b) { assert Relaxed(dist, a, b); }
    }
  }

  lemma LineClosed(net: Network, pos: Position, pos': Position, dist: map<int, int>, e: int, a: int, b: int)
    requires e in net.lines && net.lines[e].Touches(a) && net.lines[e].Other(a) == b && pos'.open == pos.open
    requires forall f, x, y :: Passable(net, pos', f, x, y) && f != e ==> Passable(net, pos, f, x, y)
    ensures NewSteps(net, pos, pos', dist, {a, b})
  {
    forall x, y | x in dist && Feeds(net, pos', x, y) ensures Feeds(net, pos, x, y) || x in {a, b} {
      var f :| Conducts(net, pos', f, x, y);
      if f != e {
        assert Passable(net, pos', f, x, y);
        assert Conducts(net, pos, f, x, y);
      }
    }
  }

  lemma NodeClosed(net: Network, pos: Position, sources: set<int>, dist: map<int, int>, n: int)
    requires Exact(net, pos, sources, dist)
    ensures NewSteps(net, pos, Place(pos, Device(n), false), dist, {n})
  {
    var pos' := Place(pos, Device(n), false);
    forall x, y | x in dist && Feeds(net, pos', x, y)
      ensures Feeds(net, pos, x, y) || x in {n} || (y in {n} && y !in dist)
    {
      var f :| Conducts(net, pos', f, x, y);
      if x != n {
        if y in dist { NotBlocked(net, pos, sources, dist, y); }
        assert Conducts(net, pos, f, x, y) || (y == n && y !in dist);
      }
    }
  }

  // ------------------------------------------------------------------ what changes, told once

  /** A set that is being brought up to date, and what came in and went out. */
  datatype Delta = Delta(members: set<int>, added: seq<int>, removed: seq<int>)

  ghost predicate Tells(start: set<int>, d: Delta) {
    Lists(d.added, d.members - start) && Lists(d.removed, start - d.members)
  }

  function Toggled(d: Delta, x: int, want: bool): Delta {
    if want == (x in d.members) then d
    else if want then Delta(d.members + {x}, d.added + [x], d.removed)
    else Delta(d.members - {x}, d.added, d.removed + [x])
  }

  lemma ToggledTells(start: set<int>, d: Delta, x: int, want: bool)
    requires Tells(start, d) && (x in start <==> x in d.members)
    ensures Tells(start, Toggled(d, x, want))
  {
    var d' := Toggled(d, x, want);
    if want && x !in d.members {
      ListsAppend(d.added, d.members - start, x);
      assert d'.members - start == d.members - start + {x};
      assert start - d'.members == start - d.members;
    } else if !want && x in d.members {
      ListsAppend(d.removed, start - d.members, x);
      assert start - d'.members == start - d.members + {x};
      assert d'.members - start == d.members - start;
    }
  }

  /** What is seen is as wanted, the rest as it was. */
  ghost predicate Partly(start: set<int>, goal: set<int>, d: Delta, seen: set<int>) {
    Tells(start, d) && forall x :: x in d.members <==> if x in seen then x in goal else x in start
  }

  lemma PartlyNext(start: set<int>, goal: set<int>, d: Delta, seen: set<int>, x: int)
    requires Partly(start, goal, d, seen) && x !in seen
    ensures Partly(start, goal, Toggled(d, x, x in goal), seen + {x})
  {
    ToggledTells(start, d, x, x in goal);
  }

  lemma PartlyAll(start: set<int>, goal: set<int>, d: Delta, seen: set<int>)
    requires Partly(start, goal, d, seen) && forall x :: x !in seen ==> (x in start <==> x in goal)
    ensures d.members == goal && Lists(d.added, goal - start) && Lists(d.removed, start - goal)
  {
    hide Lists;
    forall x ensures x in d.members <==> x in goal {
    }
    assert d.members == goal;
  }

  /** A line is energised when it is whole and both its ends are. */
  function Lit(net: Network, pos: Position, on: set<int>): set<int> {
    set e | e in net.lines && net.lines[e].from in on && net.lines[e].to in on && e !in pos.cut
  }

  lemma LitIs(net: Network, pos: Position, on: set<int>)
    ensures forall e :: e in Lit(net, pos, on) <==>
      e in net.lines && net.lines[e].from in on && net.lines[e].to in on && e !in pos.cut
  {
  }

  datatype EnergyDiff = EnergyDiff(nodesOn: seq<int>, nodesOff: seq<int>, linesOn: seq<int>, linesOff: seq<int>)

  lemma ExactKeys(net: Network, pos: Position, sources: set<int>, dist: map<int, int>)
    requires Exact(net, pos, sources, dist)
    ensures dist.Keys <= net.nodes.Keys
  {
  }

  lemma EndsInNetwork(net: Network, t: Target)
    requires net.Valid() && CheckTarget(net, t).None?
    ensures forall n :: n in EndsOf(net, t) ==> n in net.nodes
  {
  }

  lemma TrackedKeys(before: map<int, int>, dist: map<int, int>, changed: seq<int>)
    requires Tracked(before, dist, changed)
    ensures forall n :: n !in changed ==> (n in dist <==> n in before)
    ensures forall n :: n in changed ==> n in dist
  {
  }

  /** A line that comes on or goes off has an end among the nodes touched. */
  lemma UpdateReaches(net: Network, pos: Position, t: Target, open: bool, before: map<int, int>, dist: map<int, int>,
                      touched: seq<int>)
    requires CheckTarget(net, t).None? && forall n :: n in EndsOf(net, t) ==> n in touched
    requires forall n :: n !in touched ==> (n in dist <==> n in before)
    ensures forall e :: (e in Lit(net, pos, before.Keys)) != (e in Lit(net, Place(pos, t, open), dist.Keys)) ==>
      exists n :: n in touched && e in LinesAt(net, n)
  {
    forall e | (e in Lit(net, pos, before.Keys)) != (e in Lit(net, Place(pos, t, open), dist.Keys))
      ensures exists n :: n in touched && e in LinesAt(net, n)
    {
      var line := net.lines[e];
      if t == Cut(e) {
        assert line.from in EndsOf(net, t);
        assert line.from in touched && e in LinesAt(net, line.from);
      } else {
        assert e in pos.cut <==> e in Place(pos, t, open).cut;
        var n := if (line.from in dist) != (line.from in before) then line.from else line.to;
        assert n in touched && e in LinesAt(net, n);
      }
    }
  }

  class Graph {
    const net: Network
    var pos: Position
    var dist: map<int, int>
    var on: set<int>
    var lit: set<int>
    ghost var sources: set<int>

    ghost predicate Valid()
      reads this
    {
      net.Valid() && Exact(net, pos, sources, dist) && on == dist.Keys && lit == Lit(net, pos, on)
    }

    /** Computed in full. */
    constructor (net: Network, pos: Position)
      requires net.Valid()
      ensures Valid() && this.net == net && this.pos == pos && sources == Seeds(net, pos) && on == Live(net, pos)
      ensures forall e :: e in lit <==>
        e in net.lines && net.lines[e].from in on && net.lines[e].to in on && e !in pos.cut
    {
      this.net := net;
      this.pos := pos;
      sources := Seeds(net, pos);
      new;
      dist := Bfs(net, pos);
      on := dist.Keys;
      lit := Lit(net, pos, on);
    }

    /** Brings the lines at one node up to date. */
    method ApplyLines(id: int, d0: Delta, seen0: set<int>, ghost start: set<int>, ghost goal: set<int>)
      returns (d: Delta, seen: set<int>)
      requires net.Valid() && Partly(start, goal, d0, seen0) && goal == Lit(net, pos, dist.Keys)
      ensures Partly(start, goal, d, seen) && seen == seen0 + LinesAt(net, id)
    {
      hide Partly, Toggled;
      d, seen := d0, seen0;
      var lines := LinesAt(net, id);
      while lines != {}
        invariant lines <= LinesAt(net, id) && seen == seen0 + (LinesAt(net, id) - lines)
        invariant Partly(start, goal, d, seen)
        decreases lines
      {
        var e := Pick(lines);
        lines := lines - {e};
        if e !in seen {
          var line := net.lines[e];
          var lit := line.from in dist && line.to in dist && e !in pos.cut;
          assert lit == (e in goal);
          PartlyNext(start, goal, d, seen, e);
          d := Toggled(d, e, lit);
          seen := seen + {e};
        }
      }
    }

    /** Brings what is energised up to date at the nodes touched, and the lines at them. */
    method ApplyEnergy(touched: seq<int>) returns (diff: EnergyDiff)
      requires net.Valid() && dist.Keys <= net.nodes.Keys
      requires forall n :: n in touched ==> n in net.nodes
      requires forall n :: n !in touched ==> (n in on <==> n in dist)
      requires forall e :: (e in lit) != (e in Lit(net, pos, dist.Keys)) ==>
        exists n :: n in touched && e in LinesAt(net, n)
      modifies this`on, this`lit
      ensures on == dist.Keys
      ensures forall e :: e in lit <==>
        e in net.lines && net.lines[e].from in on && net.lines[e].to in on && e !in pos.cut
      ensures lit == Lit(net, pos, on)
      ensures Lists(diff.nodesOn, on - old(on)) && Lists(diff.nodesOff, old(on) - on)
      ensures Lists(diff.linesOn, lit - old(lit)) && Lists(diff.linesOff, old(lit) - lit)
    {
      hide Partly, Toggled, LinesAt, Lit, Lists;
      ghost var goal := Lit(net, pos, dist.Keys);
      var nodes, lines := Delta(on, [], []), Delta(lit, [], []);
      var seen, seenLines := {}, {};
      PartlyNone(on, dist.Keys);
      PartlyNone(lit, goal);
      for i := 0 to |touched|
        invariant on == old(on) && lit == old(lit)
        invariant Partly(on, dist.Keys, nodes, seen) && Partly(lit, goal, lines, seenLines)
        invariant forall n :: n in seen <==> n in touched[..i]
        invariant forall n :: n in touched[..i] ==> LinesAt(net, n) <= seenLines
      {
        var id := touched[i];
        assert touched[..i + 1] == touched[..i] + [id];
        if id !in seen {
          PartlyNext(on, dist.Keys, nodes, seen, id);
          nodes := Toggled(nodes, id, id in dist);
          seen := seen + {id};
          lines, seenLines := ApplyLines(id, lines, seenLines, lit, goal);
        }
      }
      assert touched[..|touched|] == touched;
      PartlyAll(on, dist.Keys, nodes, seen);
      forall e | e !in seenLines ensures e in lit <==> e in goal {
      }
      PartlyAll(lit, goal, lines, seenLines);
      LitIs(net, pos, dist.Keys);
      on, lit := nodes.members, lines.members;
      diff := EnergyDiff(nodes.added, nodes.removed, lines.added, lines.removed);
    }

    /** The nodes that hang from what is about to be opened, from the distances so far. */
    method RootsOf(t: Target) returns (roots: seq<int>)
      requires Valid() && CheckTarget(net, t).None? && !IsOpen(pos, t)
      ensures Opened(net, Place(pos, t, true), NextSources(net, pos, sources, dist, t, true), dist, Members(roots))
    {
      hide Exact, Opened;
      match t
      case Cut(e) =>
        var line := net.lines[e];
        LineOpened(net, pos, Place(pos, t, true), sources, dist, e, line.from, line.to);
        roots := Hanging(net, pos, dist, e, line.from, line.to);
      case Way(n, e) =>
        var other := net.lines[e].Other(n);
        LineOpened(net, pos, Place(pos, t, true), sources, dist, e, n, other);
        roots := Hanging(net, pos, dist, e, n, other);
      case Device(n) =>
        if !net.nodes[n].switch {
          ObjectOpened(net, pos, sources, dist, n);
          roots := if n in dist then [n] else [];
          assert Members(roots) == if n in dist then {n} else {};
        } else if n in dist {
          roots := Further(net, pos, dist, n);
          SwitchOpened(net, pos, sources, dist, n, Members(roots));
        } else {
          roots := [];
          SwitchOpened(net, pos, sources, dist, n, Members(roots));
        }
    }

    lemma ClosingSeeds(t: Target)
      requires Valid() && CheckTarget(net, t).None? && IsOpen(pos, t)
      ensures Seeding(net, Place(pos, t, false), NextSources(net, pos, sources, dist, t, false), dist, multiset{},
                      Members(EndsOf(net, t)))
    {
      hide Exact, Seeding, NewSteps;
      var pos' := Place(pos, t, false);
      var ends := Members(EndsOf(net, t));
      match t {
        case Cut(e) =>
          LineClosed(net, pos, pos', dist, e, net.lines[e].from, net.lines[e].to);
          assert ends == {net.lines[e].from, net.lines[e].to};
        case Way(n, e) =>
          LineClosed(net, pos, pos', dist, e, n, net.lines[e].Other(n));
          assert ends == {n, net.lines[e].Other(n)};
        case Device(n) =>
          NodeClosed(net, pos, sources, dist, n);
          assert ends == {n};
      }
      var more := set s | s in ends && s !in dist && Seed(net, pos', s);
      SeedingIf(net, pos, pos', sources, dist, ends, more);
      assert NextSources(net, pos, sources, dist, t, false) == sources + more;
    }

    /** Changes a position and brings distances, nodes and lines up to date where they may have changed. */
    method Maneuver(t: Target, open: bool) returns (error: Option<GraphError>, diff: EnergyDiff)
      requires Valid()
      modifies this
      ensures Valid() && error == CheckTarget(net, t)
      ensures forall e :: e in lit <==>
        e in net.lines && net.lines[e].from in on && net.lines[e].to in on && e !in pos.cut
      ensures forall e :: e in old(lit) && (net.lines[e].from !in on || net.lines[e].to !in on || e in pos.cut) ==>
        e in diff.linesOff
      ensures forall e :: e in net.lines && e !in old(lit) && net.lines[e].from in on && net.lines[e].to in on
                          && e !in pos.cut ==>
        e in diff.linesOn
      ensures error.Some? ==> pos == old(pos) && sources == old(sources) && dist == old(dist)
      ensures error.None? ==>
        && pos == Place(old(pos), t, open)
        && sources == NextSources(net, old(pos), old(sources), old(dist), t, open)
      ensures Lists(diff.nodesOn, on - old(on)) && Lists(diff.nodesOff, old(on) - on)
      ensures Lists(diff.linesOn, lit - old(lit)) && Lists(diff.linesOff, old(lit) - lit)
    {
      hide Exact, Opened, Seeding, Tracked;
      diff := EnergyDiff([], [], [], []);
      error := CheckTarget(net, t);
      if error.Some? || IsOpen(pos, t) == open {
        assert error.None? ==> Place(pos, t, open) == pos;
        return;
      }
      var touched;
      ghost var before := this.dist;
      if open {
        var roots := RootsOf(t);
        sources := NextSources(net, pos, sources, dist, t, true);
        pos := Place(pos, t, true);
        dist, touched := ReseedCone(net, pos, sources, dist, roots);
      } else {
        ClosingSeeds(t);
        sources := NextSources(net, pos, sources, dist, t, false);
        pos := Place(pos, t, false);
        dist, touched := RelaxFrom(net, pos, sources, dist, EndsOf(net, t));
        TrackedKeys(before, dist, touched);
      }
      ghost var all := touched + EndsOf(net, t);
      ExactKeys(net, pos, sources, dist);
      ExactKeys(net, old(pos), old(sources), before);
      EndsInNetwork(net, t);
      UpdateReaches(net, old(pos), t, open, before, dist, all);
      diff := ApplyEnergy(touched + EndsOf(net, t));
    }
  }

  lemma PartlyNone(start: set<int>, goal: set<int>)
    ensures Partly(start, goal, Delta(start, [], []), {})
  {
  }

  // ------------------------------------------------------------------ when the update is what a search would give

  /** A source that is a switch is opened, or is closed while power reaches it from elsewhere. */
  predicate Misleads(net: Network, pos: Position, dist: map<int, int>, t: Target, open: bool) {
    && t.Device? && t.id in net.nodes && net.nodes[t.id].source && net.nodes[t.id].switch
    && IsOpen(pos, t) != open && (open || t.id in dist)
  }

  lemma {:induction false} SourcesRightIff(net: Network, pos: Position, dist: map<int, int>, t: Target, open: bool)
    requires net.Valid() && CheckTarget(net, t).None? && Exact(net, pos, Seeds(net, pos), dist)
    ensures NextSources(net, pos, Seeds(net, pos), dist, t, open) == Seeds(net, Place(pos, t, open))
       <==> !Misleads(net, pos, dist, t, open)
  {
    var sources, pos' := Seeds(net, pos), Place(pos, t, open);
    SourcesAre(net, pos, sources, dist);
    var next := NextSources(net, pos, sources, dist, t, open);
    hide Exact;
    if IsOpen(pos, t) == open {
      assert pos' == pos;
    } else if t.Device? {
      var n := t.id;
      forall m | m != n ensures m in next <==> m in Seeds(net, pos') {
        assert Seed(net, pos, m) <==> Seed(net, pos', m);
        EndsInNetwork(net, t);
      }
      assert n in next <==> (n in Seeds(net, pos') <==> !Misleads(net, pos, dist, t, open));
      if !Misleads(net, pos, dist, t, open) {
        assert n in next <==> n in Seeds(net, pos');
      }
    } else {
      assert Seeds(net, pos') == sources;
      assert next == sources;
    }
  }

  /** Distances from the wrong sources are not the right distances. */
  lemma RightFromRight(net: Network, pos: Position, sources: set<int>, right: set<int>, dist: map<int, int>)
    requires Exact(net, pos, sources, dist)
    ensures Exact(net, pos, right, dist) <==> sources == right
  {
    if Exact(net, pos, right, dist) {
      SourcesAre(net, pos, sources, dist);
      SourcesAre(net, pos, right, dist);
      hide Exact;
      forall n ensures n in sources <==> n in right {
        if n in sources { assert dist[n] == 0; }
      }
    }
  }

  /** After one maneuver on right distances, the updated distances are those of a search in full, if and only if the
      maneuver does not open a source that is a switch, nor close one that power reaches from elsewhere. */
  lemma {:induction false} UpdateIsSearchIff(net: Network, pos: Position, dist: map<int, int>, t: Target, open: bool,
                                             dist': map<int, int>)
    requires net.Valid() && CheckTarget(net, t).None? && Exact(net, pos, Seeds(net, pos), dist)
    requires Exact(net, Place(pos, t, open), NextSources(net, pos, Seeds(net, pos), dist, t, open), dist')
    ensures Exact(net, Place(pos, t, open), Seeds(net, Place(pos, t, open)), dist')
       <==> !Misleads(net, pos, dist, t, open)
  {
    hide Exact, Seeds, NextSources, Misleads;
    SourcesRightIff(net, pos, dist, t, open);
    RightFromRight(net, Place(pos, t, open), NextSources(net, pos, Seeds(net, pos), dist, t, open),
                   Seeds(net, Place(pos, t, open)), dist');
  }

  datatype GridState = GridState(pos: Position, sources: set<int>, dist: map<int, int>)

  datatype Move = Move(t: Target, open: bool)

  ghost predicate Updated(net: Network, s: GridState, m: Move, s': GridState)
  {
    && CheckTarget(net, m.t).None? && s'.pos == Place(s.pos, m.t, m.open)
    && s'.sources == NextSources(net, s.pos, s.sources, s.dist, m.t, m.open)
    && Exact(net, s'.pos, s'.sources, s'.dist)
  }

  ghost predicate Right(net: Network, s: GridState) {
    s.sources == Seeds(net, s.pos) && Exact(net, s.pos, s.sources, s.dist)
  }

  /** A run of maneuvers from distances that were computed in full. */
  ghost predicate IsGridRun(net: Network, states: seq<GridState>, moves: seq<Move>) {
    && net.Valid() && |states| == |moves| + 1 && Right(net, states[0])
    && forall i :: 0 <= i < |moves| ==> Updated(net, states[i], moves[i], states[i + 1])
  }

  lemma RightNextIff(net: Network, s: GridState, m: Move, s': GridState)
    requires net.Valid() && Right(net, s) && Updated(net, s, m, s')
    ensures Right(net, s') <==> !Misleads(net, s.pos, s.dist, m.t, m.open)
  {
    hide Exact, Seeds, NextSources, Misleads;
    SourcesRightIff(net, s.pos, s.dist, m.t, m.open);
  }

  /** Throughout a run the distances are those of a search in full, and what is energised is what the sources reach, if
      and only if no maneuver of the run opens a source that is a switch or closes one that power reaches from
      elsewhere. */
  lemma {:induction false} UpdatesAreSearchesIff(net: Network, states: seq<GridState>, moves: seq<Move>)
    requires IsGridRun(net, states, moves)
    ensures (forall i :: 0 <= i < |states| ==>
               Exact(net, states[i].pos, Seeds(net, states[i].pos), states[i].dist)
               && states[i].dist.Keys == Live(net, states[i].pos))
       <==> (forall i :: 0 <= i < |moves| ==>
               !Misleads(net, states[i].pos, states[i].dist, moves[i].t, moves[i].open))
  {
    hide Misleads, Live, Exact;
    if forall i :: 0 <= i < |moves| ==> !Misleads(net, states[i].pos, states[i].dist, moves[i].t, moves[i].open) {
      RightThroughout(net, states, moves);
      forall i | 0 <= i < |states|
        ensures Exact(net, states[i].pos, Seeds(net, states[i].pos), states[i].dist)
          && states[i].dist.Keys == Live(net, states[i].pos)
      {
        ExactMeansHops(net, states[i].pos, states[i].dist);
      }
    } else {
      var i := FirstMisleading(net, states, moves);
      var s, m, s' := states[i], moves[i], states[i + 1];
      assert Updated(net, s, m, s');
      RightNextIff(net, s, m, s');
      RightFromRight(net, s'.pos, s'.sources, Seeds(net, s'.pos), s'.dist);
    }
  }

  lemma {:induction false} RightThroughout(net: Network, states: seq<GridState>, moves: seq<Move>)
    requires IsGridRun(net, states, moves)
    requires forall i :: 0 <= i < |moves| ==> !Misleads(net, states[i].pos, states[i].dist, moves[i].t, moves[i].open)
    ensures forall i :: 0 <= i < |states| ==> Right(net, states[i])
  {
    hide Misleads, Right, Updated;
    var n := 0;
    while n < |moves|
      invariant 0 <= n <= |moves| && forall i :: 0 <= i <= n ==> Right(net, states[i])
    {
      var s, m, s' := states[n], moves[n], states[n + 1];
      assert Updated(net, s, m, s');
      RightNextIff(net, s, m, s');
      n := n + 1;
    }
  }

  /** The first maneuver that misleads finds everything right. */
  lemma {:induction false} FirstMisleading(net: Network, states: seq<GridState>, moves: seq<Move>) returns (i: nat)
    requires IsGridRun(net, states, moves)
    requires exists i :: 0 <= i < |moves| && Misleads(net, states[i].pos, states[i].dist, moves[i].t, moves[i].open)
    ensures i < |moves| && Right(net, states[i])
    ensures Misleads(net, states[i].pos, states[i].dist, moves[i].t, moves[i].open)
  {
    hide Misleads, Right, Updated;
    i := 0;
    while !Misleads(net, states[i].pos, states[i].dist, moves[i].t, moves[i].open)
      invariant i < |moves| && Right(net, states[i])
      invariant forall j :: 0 <= j < i ==> !Misleads(net, states[j].pos, states[j].dist, moves[j].t, moves[j].open)
      decreases |moves| - i
    {
      var s, m, s' := states[i], moves[i], states[i + 1];
      assert Updated(net, s, m, s');
      RightNextIff(net, s, m, s');
      i := i + 1;
    }
  }

  /** No source is a switch, as in the catalogue of component types. */
  predicate Direct(net: Network) {
    forall n :: n in net.nodes && net.nodes[n].source ==> !net.nodes[n].switch
  }

  lemma DirectMisleadsNever(net: Network, pos: Position, dist: map<int, int>, t: Target, open: bool)
    ensures Direct(net) ==> !Misleads(net, pos, dist, t, open)
  {
  }

  /** One source that is a switch. */
  function Plant(): (net: Network)
    ensures net.Valid()
  {
    Network(map[1 := Node(true, true, 2, 0, false, 0, 0)], map[])
  }

  /** Opened, it counts as energised although nothing reaches it. */
  lemma {:induction false} OpenedSourceStaysOn()
    ensures var before, after, dist := Position({}, {}, {}), Place(Position({}, {}, {}), Device(1), true), map[1 := 0];
      && Exact(Plant(), before, Seeds(Plant(), before), dist)
      && Exact(Plant(), after, NextSources(Plant(), before, Seeds(Plant(), before), dist, Device(1), true), dist)
      && Live(Plant(), after) == {}
  {
    var net, before, dist := Plant(), Position({}, {}, {}), map[1 := 0];
    assert Seed(net, before, 1);
    assert Seeds(net, before) == {1};
    assert NextSources(net, before, {1}, dist, Device(1), true) == {1};
    LiveIsLeast(net, Place(before, Device(1), true), {});
  }
}
