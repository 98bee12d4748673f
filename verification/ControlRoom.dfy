/** Carrying out a maneuver: validation, the change of positions, and the update of the outage table. */
module ControlRoom {
  import opened Listings
  import opened Network
  import opened Isolation
  import opened Ledger
  import opened Distances
  import opened Grid

  /** `node`, `line` and `way` are 0 when absent; `line` wins over `node`. */
  datatype Request = Request(node: int, line: int, way: int, action: string, kind: string)

  /** Who asks. `system` is an external system, trusted but refused when nothing would change.
      `at` is the time the external system reports. */
  datatype Actor = Actor(system: bool, permitted: bool, at: Option<int>)

  datatype Refusal = ActionInvalid | KindInvalid | NoPermission | WayNotAllowed | AlreadyInState | NotFound | WayInvalid

  const KINDS := {"GANGGUAN", "PEMELIHARAAN", "MLS", "MANUVER", "BENCANA ALAM"}

  /** What the maneuver acts on. A single way is passed on to the graph even when its id is negative. */
  function TargetOf(req: Request): Target {
    if req.line > 0 then Cut(req.line)
    else if req.way != 0 then Way(req.node, req.way)
    else Device(req.node)
  }

  function RefusedBeforehand(net: Network, pos: Position, req: Request, actor: Actor): Option<Refusal> {
    var open := req.action == "open";
    var singleWay := req.way > 0 && req.line <= 0;
    if req.action != "open" && req.action != "close" then Some(ActionInvalid)
    else if req.kind !in KINDS && (open || req.kind != "") then Some(KindInvalid)
    else if (if req.line > 0 then req.line !in net.lines else req.node !in net.nodes) then Some(NotFound)
    else if !actor.system && !actor.permitted then Some(NoPermission)
    else if singleWay && net.nodes[req.node].ways < 3 then Some(WayNotAllowed)
    else if actor.system && !singleWay
            && open == (if req.line > 0 then req.line in pos.cut else req.node in pos.open) then Some(AlreadyInState)
    else None
  }

  function RefusedByGraph(net: Network, req: Request): Option<Refusal> {
    match CheckTarget(net, TargetOf(req))
    case None => None
    case Some(NotInGraph) => Some(NotFound)
    case Some(NotSwitch) => Some(WayNotAllowed)
    case Some(_) => Some(Refusal.WayInvalid)
  }

  function Refused(net: Network, pos: Position, req: Request, actor: Actor): Option<Refusal> {
    var early := RefusedBeforehand(net, pos, req, actor);
    if early.Some? then early else RefusedByGraph(net, req)
  }

  /** The action and the category are known; only a closing may leave the category open. */
  predicate WellStated(req: Request) {
    && (req.action == "open" || req.action == "close")
    && (req.kind in {"GANGGUAN", "PEMELIHARAAN", "MLS", "MANUVER", "BENCANA ALAM"}
        || (req.action == "close" && req.kind == ""))
  }

  /** The line, or else the node, is there. */
  predicate Names(net: Network, req: Request) {
    if req.line > 0 then req.line in net.lines else req.node in net.nodes
  }

  /** What is to be moved stands the other way. */
  predicate WouldMove(pos: Position, req: Request) {
    if req.line > 0 then (req.line in pos.cut) == (req.action == "close")
    else (req.node in pos.open) == (req.action == "close")
  }

  /** Which requests are accepted, and why others are not: the first reason that applies, in this order. */
  lemma {:induction false} RefusalMeans(net: Network, pos: Position, req: Request, actor: Actor)
    requires net.Valid()
    ensures var r := Refused(net, pos, req, actor);
            var stated, named, allowed := WellStated(req), Names(net, req), actor.system || actor.permitted;
            var whole := req.line > 0 || req.way <= 0;
      && (r == Some(ActionInvalid) <==> req.action != "open" && req.action != "close")
      && (r == Some(KindInvalid) <==> (req.action == "open" || req.action == "close") && !stated)
      && (r == Some(NotFound) <==> stated && !named)
      && (r == Some(NoPermission) <==> stated && named && !allowed)
      && (r == Some(AlreadyInState) <==>
            stated && named && allowed && actor.system && whole && !WouldMove(pos, req))
      && (r == Some(WayNotAllowed) <==>
            && stated && named && allowed && req.line <= 0 && req.way != 0
            && (if req.way > 0 then net.nodes[req.node].ways < 3 || !net.nodes[req.node].switch
                else !net.nodes[req.node].switch && (actor.system ==> WouldMove(pos, req))))
      && (r == None <==>
            && stated && named && allowed
            && if whole then (req.line > 0 || req.way == 0) && (actor.system ==> WouldMove(pos, req))
               else && net.nodes[req.node].ways >= 3 && net.nodes[req.node].switch && req.way in net.lines
                    && (net.lines[req.way].from == req.node || net.lines[req.way].to == req.node))
  {
    assert req.way <= 0 ==> req.way !in net.lines;
  }

  /** The position an accepted request asks for. */
  lemma PlacedAs(pos: Position, req: Request)
    ensures var open, pos' := req.action == "open", Place(pos, TargetOf(req), req.action == "open");
      if req.line > 0 then
        pos' == Position(pos.open, if open then pos.cut + {req.line} else pos.cut - {req.line}, pos.ways)
      else if req.way != 0 then
        pos' == Position(pos.open, pos.cut,
                         if open then pos.ways + {(req.node, req.way)} else pos.ways - {(req.node, req.way)})
      else pos' == Position(if open then pos.open + {req.node} else pos.open - {req.node}, pos.cut, pos.ways)
  {
  }

  lemma AcceptedByGraph(net: Network, pos: Position, req: Request, actor: Actor)
    requires Refused(net, pos, req, actor).None?
    ensures CheckTarget(net, TargetOf(req)).None?
  {
    hide RefusedBeforehand;
  }

  /** The chosen events have ended at `eff`, or where they started if that is later; nothing else has changed. */
  ghost predicate OnlyEnds(before: seq<Outage>, after: seq<Outage>, chosen: set<int>, eff: int) {
    && |after| == |before|
    && forall i :: 0 <= i < |after| ==>
         if i in chosen then
           after[i].end.Some? && after[i] == before[i].(end := after[i].end)
           && after[i].end.value >= eff && after[i].end.value >= before[i].start
           && (after[i].end.value == eff || after[i].end.value == before[i].start)
         else after[i] == before[i]
  }

  class ControlRoom {
    const net: Network
    const graph: Graph
    var outages: seq<Outage>

    ghost function Snapshot(): State
      reads this, graph
    {
      State(graph.pos, graph.on, outages)
    }

    /** The graph is up to date, and the ledger is sound. */
    ghost predicate Valid()
      reads this, graph
    {
      && graph.Valid() && graph.net == net && graph.sources == Seeds(net, graph.pos)
      && Sound(net, Snapshot())
    }

    constructor (net: Network, pos: Position)
      requires net.Valid()
      ensures Valid() && fresh(graph) && this.net == net && graph.pos == pos && outages == []
    {
      this.net := net;
      graph := new Graph(net, pos);
      outages := [];
    }

    /** Changes the position and brings up to date what is energised; returns what came on and what went off. What is
        energised is what the sources reach, but for a maneuver on a source that is a switch. */
    method Maneuver(t: Target, open: bool) returns (nodesOn: seq<int>, nodesOff: seq<int>)
      requires graph.Valid() && graph.net == net && graph.sources == Seeds(net, graph.pos)
      requires CheckTarget(net, t).None?
      modifies graph
      ensures graph.Valid() && graph.pos == Place(old(graph.pos), t, open)
      ensures graph.sources == Seeds(net, graph.pos) <==> !Misleads(net, old(graph.pos), old(graph.dist), t, open)
      ensures graph.sources == Seeds(net, graph.pos) ==> graph.on == Live(net, graph.pos)
      ensures Lists(nodesOn, graph.on - old(graph.on)) && Lists(nodesOff, old(graph.on) - graph.on)
    {
      hide Exact, Lit, Live, Misleads;
      SourcesRightIff(net, graph.pos, graph.dist, t, open);
      var error, diff := graph.Maneuver(t, open);
      if graph.sources == Seeds(net, graph.pos) { ExactMeansHops(net, graph.pos, graph.dist); }
      nodesOn, nodesOff := diff.nodesOn, diff.nodesOff;
    }

    /** Ends the active events caused by the target: one UPDATE of the table. */
    method CloseOutages(target: Target, eff: int) returns (ids: seq<int>)
      modifies this`outages
      ensures Lists(ids, CausedBy(old(outages), target))
      ensures outages == Ended(old(outages), CausedBy(old(outages), target), eff)
      ensures forall i: int :: i in ids <==>
        0 <= i < |old(outages)| && old(outages)[i].end.None? && old(outages)[i].cause == target
      ensures OnlyEnds(old(outages), outages, Members(ids), eff)
    {
      var caused := CausedBy(outages, target);
      outages := Ended(outages, caused, eff);
      ids := ListSet(caused);
    }

    /** The active events that hold one of the nodes. */
    method ActiveOutagesTouching(nodes: seq<int>) returns (ids: seq<int>)
      ensures Lists(ids, Touching(outages, Members(nodes)))
      ensures forall i: int :: i in ids <==>
        0 <= i < |outages| && outages[i].end.None? && exists n :: n in outages[i].affected && n in nodes
    {
      ids := ListSet(Touching(outages, Members(nodes)));
    }

    /** Ends those of the given events that are still active. */
    method CloseOutageIDs(ids: seq<int>, eff: int) returns (ended: seq<int>)
      modifies this`outages
      ensures var chosen := set i | i in ids && 0 <= i < |old(outages)| && old(outages)[i].Active();
              Lists(ended, chosen) && outages == Ended(old(outages), chosen, eff)
    {
      var chosen := set i | i in ids && 0 <= i < |outages| && outages[i].Active();
      outages := Ended(outages, chosen, eff);
      ended := ListSet(chosen);
    }

    /** Ends the events the target caused, then every other active event that holds a node now back on. */
    method CloseAffected(target: Target, nodesOn: seq<int>, eff: int) returns (closed: seq<int>)
      modifies this`outages
      ensures var all := ClosedBy(old(outages), target, Members(nodesOn));
              Lists(closed, all) && outages == Ended(old(outages), all, eff)
      ensures forall i: int :: i in closed <==>
        0 <= i < |old(outages)| && old(outages)[i].end.None?
        && (old(outages)[i].cause == target || exists n :: n in old(outages)[i].affected && n in nodesOn)
      ensures OnlyEnds(old(outages), outages, Members(closed), eff)
    {
      ghost var table := outages;
      ghost var back := Members(nodesOn);
      closed := CloseOutages(target, eff);
      ghost var caused := CausedBy(table, target);
      var ids := ActiveOutagesTouching(nodesOn);
      var other := Without(ids, closed);
      var more := CloseOutageIDs(other, eff);
      ghost var rest := Members(more);
      assert rest == Touching(table, back) - caused;
      EndedTwice(table, caused, rest, eff);
      assert caused + rest == ClosedBy(table, target, back);
      DistinctConcat(closed, more);
      assert forall i :: i in closed + more <==> i in caused + rest;
      closed := closed + more;
    }

    /** Opens the continuations of one ended event. Isolators are taken in an order that is not specified. */
    method ContinueEvent(p: nat, now: int, ghost base: seq<Outage>, ghost pairs: seq<(nat, int)>)
      returns (ghost pairs': seq<(nat, int)>)
      requires net.Valid() && WellFormed(net, base) && p < |base| <= |outages| && outages[..|base|] == base
      requires Made(net, graph.pos.open, graph.on, base, pairs, outages[|base|..], now)
      requires forall q: nat, iso :: (q, iso) in pairs ==> q != p
      modifies this`outages
      ensures |base| <= |outages| && outages[..|base|] == base
      ensures Made(net, graph.pos.open, graph.on, base, pairs', outages[|base|..], now)
      ensures forall q: nat, iso :: (q, iso) in pairs' <==>
        (q, iso) in pairs || (q == p && Remains(net, graph.pos.open, graph.on, base, p, iso))
    {
      hide Customers, Searched, GroupOf, StillOff, InGraph, Part, Live;
      pairs' := pairs;
      var parent := outages[p];
      assert parent == base[p] by { assert outages[..|base|][p] == outages[p]; }
      AllInGraph(net, parent.affected);
      var groups := StillOffByIsolator(net, graph.pos.open, graph.on, parent.affected);
      var isolators := ListSet(groups.Keys);
      NoPartOutsideGroups(net, graph.pos.open, graph.on, parent.affected, groups);
      for j := 0 to |isolators|
        invariant |base| <= |outages| && outages[..|base|] == base
        invariant Made(net, graph.pos.open, graph.on, base, pairs', outages[|base|..], now)
        invariant forall q: nat, iso :: (q, iso) in pairs' <==>
          (q, iso) in pairs || (q == p && iso in isolators[..j] && Remains(net, graph.pos.open, graph.on, base, p, iso))
      {
        var iso := isolators[j];
        assert iso in isolators;
        assert forall k :: k in isolators[..j + 1] <==> k in isolators[..j] || k == iso;
        if iso != 0 && Customers(net, groups[iso]) > 0 {
          assert (p, iso) !in pairs' by { assert iso !in isolators[..j]; }
          MadeSnoc(net, graph.pos.open, graph.on, base, pairs', outages[|base|..], now, p, iso);
          var o := Outage(parent.kind, Device(iso), groups[iso], Some(p), now, None);
          assert (outages + [o])[|base|..] == outages[|base|..] + [o];
          assert (outages + [o])[..|base|] == outages[..|base|];
          outages := outages + [o];
          pairs' := pairs' + [(p, iso)];
        }
      }
      assert isolators[..|isolators|] == isolators;
    }

    /** Opens one continuation for every ended event and every device behind which customers stay off. */
    method OpenContinuations(closed: seq<int>, now: int)
      requires net.Valid() && WellFormed(net, outages)
      requires Distinct(closed) && forall p :: p in closed ==> 0 <= p < |outages|
      modifies this`outages
      ensures |old(outages)| <= |outages| && outages[..|old(outages)|] == old(outages)
      ensures exists pairs ::
        Continued(net, graph.pos.open, graph.on, old(outages), Members(closed), pairs, outages[|old(outages)|..], now)
    {
      ghost var base := outages;
      ghost var pairs: seq<(nat, int)> := [];
      for i := 0 to |closed|
        invariant |base| <= |outages| && outages[..|base|] == base
        invariant Made(net, graph.pos.open, graph.on, base, pairs, outages[|base|..], now)
        invariant forall q: nat, iso ::
          (q, iso) in pairs <==> q in closed[..i] && Remains(net, graph.pos.open, graph.on, base, q, iso)
      {
        assert closed[i] in closed && closed[i] !in closed[..i];
        assert forall q :: q in closed[..i + 1] <==> q in closed[..i] || q == closed[i];
        pairs := ContinueEvent(closed[i], now, base, pairs);
      }
      assert closed[..|closed|] == closed;
      assert Continued(net, graph.pos.open, graph.on, base, Members(closed), pairs, outages[|base|..], now);
    }

    /** Carries out a maneuver, or refuses it and changes nothing. A maneuver carried out is a step of the ledger,
        unless it opens a source that is a switch or closes one that power reaches from elsewhere; the catalogue of
        component types has no such source. */
    method Exec(req: Request, actor: Actor, now: int) returns (refusal: Option<Refusal>)
      requires Valid()
      modifies this`outages, graph
      ensures refusal == Refused(net, old(graph.pos), req, actor)
      ensures refusal.Some? ==> Valid() && Snapshot() == old(Snapshot())
      ensures var misleads := Misleads(net, old(graph.pos), old(graph.dist), TargetOf(req), req.action == "open");
        refusal.None? && !misleads ==>
          Valid() && Step(net, old(Snapshot()), CommandOf(req, actor, now), Snapshot())
      ensures refusal.None? ==> graph.Valid() && graph.pos == Place(old(graph.pos), TargetOf(req), req.action == "open")
      ensures refusal.None? && req.line > 0 ==> graph.pos == old(graph.pos).(cut :=
        if req.action == "open" then old(graph.pos).cut + {req.line} else old(graph.pos).cut - {req.line})
      ensures refusal.None? && req.line <= 0 && req.way == 0 ==> graph.pos == old(graph.pos).(open :=
        if req.action == "open" then old(graph.pos).open + {req.node} else old(graph.pos).open - {req.node})
      ensures refusal.None? && req.line <= 0 && req.way != 0 ==> graph.pos == old(graph.pos).(ways :=
        if req.action == "open" then old(graph.pos).ways + {(req.node, req.way)}
        else old(graph.pos).ways - {(req.node, req.way)})
      ensures refusal.None? && Direct(net) ==> Valid()
      ensures var misleads := Misleads(net, old(graph.pos), old(graph.dist), TargetOf(req), req.action == "open");
        refusal.None? && !misleads && req.action == "open" ==>
          AddsOpening(old(outages), outages, old(graph.on) - graph.on,
                      Command(TargetOf(req), true, req.kind, actor.at, now))
      ensures var misleads := Misleads(net, old(graph.pos), old(graph.dist), TargetOf(req), req.action == "open");
        refusal.None? && !misleads && req.action == "close" ==>
          && EndsExactly(old(outages), outages, TargetOf(req), graph.on, actor.at.GetOr(now))
          && AddsContinuations(old(outages), outages, graph.pos.open, graph.on, now)
    {
      hide Live, Continued, Ended, ClosedBy, Part, RefusedBeforehand, RefusedByGraph, Exact, Lit, Misleads, Direct,
        AddsOpening, EndsExactly, AddsContinuations;
      refusal := Refused(net, graph.pos, req, actor);
      if refusal.Some? { return; }
      AcceptedByGraph(net, graph.pos, req, actor);
      ghost var before := Snapshot();
      var open, target, eff := req.action == "open", TargetOf(req), actor.at.GetOr(now);
      var nodesOn, nodesOff := Maneuver(target, open);
      if open {
        assert nodesOff == [] <==> before.on <= graph.on by {
          if nodesOff != [] { assert nodesOff[0] in nodesOff; }
          assert forall n :: n in before.on && n !in graph.on ==> n in nodesOff;
        }
        if nodesOff != [] {
          outages := outages + [Outage(req.kind, target, nodesOff, None, eff, None)];
        }
      } else {
        ghost var back := graph.on - before.on;
        assert Members(nodesOn) == back;
        EndedKeeps(net, before.outages, target, back, eff);
        var closed := CloseAffected(target, nodesOn, eff);
        ghost var base := outages;
        OpenContinuations(closed, now);
        assert Members(closed) == ClosedBy(before.outages, target, back);
        ghost var pairs :|
          Continued(net, graph.pos.open, graph.on, base, Members(closed), pairs, outages[|base|..], now);
        ContinuedSameBase(net, graph.pos.open, graph.on, base, before.outages, Members(closed), pairs,
          outages[|base|..], now);
      }
      DirectMisleadsNever(net, old(graph.pos), old(graph.dist), target, open);
      PlacedAs(old(graph.pos), req);
      if graph.sources == Seeds(net, graph.pos) {
        StepLaws(net, before, CommandOf(req, actor, now), Snapshot());
      }
    }
  }

  lemma StepLaws(net: Network, s: State, c: Command, s': State)
    requires Sound(net, s) && Step(net, s, c, s')
    ensures Sound(net, s')
    ensures c.open ==> AddsOpening(s.outages, s'.outages, s.on - s'.on, c)
    ensures !c.open ==> EndsExactly(s.outages, s'.outages, c.target, s'.on, c.at.GetOr(c.now))
    ensures !c.open ==> AddsContinuations(s.outages, s'.outages, s'.pos.open, s'.on, c.now)
  {
    hide OpenStep, CloseStep, Sound, AddsOpening, EndsExactly, AddsContinuations;
    StepKeepsSound(net, s, c, s');
    if c.open {
      OpeningAdds(net, s, c, s');
    } else {
      ClosingEnds(net, s, c, s');
      ClosingAdds(net, s, c, s');
    }
  }

  function CommandOf(req: Request, actor: Actor, now: int): Command {
    Command(TargetOf(req), req.action == "open", req.kind, actor.at, now)
  }

  function CausedBy(outages: seq<Outage>, target: Target): set<int> {
    set i | 0 <= i < |outages| && outages[i].Active() && outages[i].cause == target
  }

  function Touching(outages: seq<Outage>, nodes: set<int>): set<int> {
    set i | 0 <= i < |outages| && outages[i].Active() && exists n :: n in outages[i].affected && n in nodes
  }

  /** The ids of a list that are not already done, in order. */
  function Without(ids: seq<int>, done: seq<int>): (rest: seq<int>)
    ensures forall i :: i in rest <==> i in ids && i !in done
  {
    if ids == [] then []
    else (if ids[0] in done then [] else [ids[0]]) + Without(ids[1..], done)
  }

  lemma EndedTwice(outages: seq<Outage>, first: set<int>, next: set<int>, eff: int)
    requires first !! next
    ensures Ended(Ended(outages, first, eff), next, eff) == Ended(outages, first + next, eff)
  {
    var once, twice, atOnce :=
      Ended(outages, first, eff), Ended(Ended(outages, first, eff), next, eff), Ended(outages, first + next, eff);
    forall i | 0 <= i < |outages| ensures twice[i] == atOnce[i] {
      assert i in next ==> once[i] == outages[i];
    }
    assert twice == atOnce;
  }

  lemma EndedKeeps(net: Network, outages: seq<Outage>, target: Target, back: set<int>, eff: int)
    requires WellFormed(net, outages)
    ensures WellFormed(net, Ended(outages, ClosedBy(outages, target, back), eff))
    ensures forall i :: i in ClosedBy(outages, target, back) ==> 0 <= i < |outages|
    ensures forall i :: 0 <= i < |outages| ==> var o := Ended(outages, ClosedBy(outages, target, back), eff)[i];
      o.kind == outages[i].kind && o.affected == outages[i].affected
  {
  }

  /** Continuations depend only on the kinds and the nodes of the ended events. */
  lemma ContinuedSameBase(net: Network, open: set<int>, on: set<int>, a: seq<Outage>, b: seq<Outage>, closed: set<int>,
                          pairs: seq<(nat, int)>, tail: seq<Outage>, now: int)
    requires net.Valid() && Known(net, a) && Known(net, b) && |a| == |b|
    requires forall i :: 0 <= i < |a| ==> a[i].kind == b[i].kind && a[i].affected == b[i].affected
    requires Continued(net, open, on, a, closed, pairs, tail, now)
    ensures Continued(net, open, on, b, closed, pairs, tail, now)
  {
    hide Part, Customers;
    forall p: nat, iso ensures (p, iso) in pairs <==> p in closed && Remains(net, open, on, b, p, iso) {
      assert Remains(net, open, on, a, p, iso) <==> Remains(net, open, on, b, p, iso);
    }
  }

  // ------------------------------------------------------------------ continuations being made

  ghost predicate Made(net: Network, open: set<int>, on: set<int>, base: seq<Outage>,
                       pairs: seq<(nat, int)>, tail: seq<Outage>, now: int)
    requires net.Valid() && Known(net, base)
  {
    && Distinct(pairs) && |tail| == |pairs|
    && (forall k :: 0 <= k < |pairs| ==>
          pairs[k].0 < |base| && tail[k] == Continuation(net, open, on, base, pairs[k].0, pairs[k].1, now))
  }

  lemma MadeSnoc(net: Network, open: set<int>, on: set<int>, base: seq<Outage>,
                 pairs: seq<(nat, int)>, tail: seq<Outage>, now: int, p: nat, iso: int)
    requires net.Valid() && Known(net, base) && p < |base|
    requires Made(net, open, on, base, pairs, tail, now) && (p, iso) !in pairs
    ensures Made(net, open, on, base, pairs + [(p, iso)], tail + [Continuation(net, open, on, base, p, iso, now)], now)
  {
    hide Continuation;
  }

  /** A device that is not among the groups leaves nobody off. */
  lemma NoPartOutsideGroups(net: Network, open: set<int>, on: set<int>, affected: seq<int>, groups: map<int, seq<int>>)
    requires net.Valid() && forall n :: n in affected ==> n in net.nodes
    requires var off := StillOff(on, affected); Grouped(Searched(net, open, off), off, groups)
    ensures forall iso :: iso in groups ==> groups[iso] == Part(net, open, on, affected, iso)
    ensures forall iso :: iso !in groups ==> Part(net, open, on, affected, iso) == []
  {
    forall iso | iso !in groups ensures Part(net, open, on, affected, iso) == [] {
      var off := StillOff(on, affected);
      NoGroup(Searched(net, open, off), off, iso);
    }
  }
}
