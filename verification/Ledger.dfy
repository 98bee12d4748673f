/** The outage ledger as a transition system: positions, energised nodes, and the table of outage events.
    An event's id is its place in the table. */
module Ledger {
  import opened Listings
  import opened Network
  import opened Isolation

  datatype Outage = Outage(
    kind: string, cause: Target, affected: seq<int>, parent: Option<nat>, start: int, end: Option<int>)
  {
    predicate Active() { end.None? }

    function EndBy(now: int): int {
      end.GetOr(now)
    }
  }

  datatype State = State(pos: Position, on: set<int>, outages: seq<Outage>)

  /** One accepted maneuver. `at` is the time reported by an external system, `now` the server's clock. */
  datatype Command = Command(target: Target, open: bool, kind: string, at: Option<int>, now: int) {
    function Effective(): int {
      at.GetOr(now)
    }
  }

  function CustomerWeight(net: Network): int -> nat {
    (n: int) => if n in net.nodes then net.nodes[n].customers else 0
  }

  function Customers(net: Network, ids: seq<int>): (r: nat)
    ensures r > 0 <==> exists n :: n in ids && n in net.nodes && net.nodes[n].customers > 0
    decreases |ids|
  {
    CustomersUnfold(net, ids);
    Sum(CustomerWeight(net), ids)
  }

  lemma {:induction false} CustomersUnfold(net: Network, ids: seq<int>)
    ensures var r := Sum(CustomerWeight(net), ids);
            r > 0 <==> exists n :: n in ids && n in net.nodes && net.nodes[n].customers > 0
  {
    if ids != [] {
      CustomersUnfold(net, ids[1..]);
      assert forall n :: n in ids <==> n == ids[0] || n in ids[1..];
    }
  }

  // ------------------------------------------------------------------ one step

  /** The table after the listed events have ended. An event never ends before it started. */
  function Ended(outages: seq<Outage>, closed: set<int>, eff: int): (r: seq<Outage>)
    ensures |r| == |outages|
  {
    seq(|outages|, i requires 0 <= i < |outages| =>
      if i in closed then outages[i].(end := Some(if outages[i].start > eff then outages[i].start else eff))
      else outages[i])
  }

  /** The events a closing maneuver ends: those the target caused, and those that hold a node now back on. */
  function ClosedBy(outages: seq<Outage>, target: Target, back: set<int>): (r: set<int>) {
    set i | 0 <= i < |outages| && outages[i].Active()
            && (outages[i].cause == target || exists n :: n in outages[i].affected && n in back)
  }

  /** What is still off of one event, as isolated by one device. */
  function Part(net: Network, open: set<int>, on: set<int>, affected: seq<int>, iso: int): seq<int>
    requires net.Valid() && forall n :: n in affected ==> n in net.nodes
  {
    var off := StillOff(on, affected);
    GroupOf(Searched(net, open, off), off, iso)
  }

  ghost predicate Known(net: Network, outages: seq<Outage>) {
    forall i, n :: 0 <= i < |outages| && n in outages[i].affected ==> n in net.nodes
  }

  /** Event `p` leaves customers off behind device `iso`. */
  ghost predicate Remains(net: Network, open: set<int>, on: set<int>, base: seq<Outage>, p: int, iso: int)
    requires net.Valid() && Known(net, base)
  {
    0 <= p < |base| && iso != 0 && Customers(net, Part(net, open, on, base[p].affected, iso)) > 0
  }

  function Continuation(net: Network, open: set<int>, on: set<int>, base: seq<Outage>, p: nat, iso: int,
                        now: int): Outage
    requires net.Valid() && Known(net, base) && p < |base|
  {
    Outage(base[p].kind, Device(iso), Part(net, open, on, base[p].affected, iso), Some(p), now, None)
  }

  /** `tail` holds one continuation for every ended event and every device behind which customers stay off. */
  ghost predicate Continued(net: Network, open: set<int>, on: set<int>, base: seq<Outage>, closed: set<int>,
                            pairs: seq<(nat, int)>, tail: seq<Outage>, now: int)
    requires net.Valid() && Known(net, base)
  {
    && Distinct(pairs) && |tail| == |pairs|
    && (forall p: nat, iso :: (p, iso) in pairs <==> p in closed && Remains(net, open, on, base, p, iso))
    && (forall k :: 0 <= k < |pairs| ==>
          pairs[k].0 < |base| && tail[k] == Continuation(net, open, on, base, pairs[k].0, pairs[k].1, now))
  }

  ghost predicate OpenStep(net: Network, s: State, c: Command, s': State) {
    && s'.pos == Place(s.pos, c.target, true)
    && s'.on == Live(net, s'.pos)
    && if s.on <= s'.on then s'.outages == s.outages
       else
         && |s'.outages| == |s.outages| + 1 && s'.outages[..|s.outages|] == s.outages
         && var o := s'.outages[|s.outages|];
            o == Outage(c.kind, c.target, o.affected, None, c.Effective(), None)
            && Lists(o.affected, s.on - s'.on)
  }

  ghost predicate CloseStep(net: Network, s: State, c: Command, s': State)
    requires net.Valid() && Known(net, s.outages)
  {
    && s'.pos == Place(s.pos, c.target, false)
    && s'.on == Live(net, s'.pos)
    && var n := |s.outages|;
       var closed := ClosedBy(s.outages, c.target, s'.on - s.on);
       && n <= |s'.outages|
       && s'.outages[..n] == Ended(s.outages, closed, c.Effective())
       && exists pairs :: Continued(net, s'.pos.open, s'.on, s.outages, closed, pairs, s'.outages[n..], c.now)
  }

  ghost predicate Step(net: Network, s: State, c: Command, s': State)
    requires net.Valid() && Known(net, s.outages)
  {
    if c.open then OpenStep(net, s, c, s') else CloseStep(net, s, c, s')
  }

  // ------------------------------------------------------------------ what every step keeps

  ghost predicate WellFormed(net: Network, outages: seq<Outage>) {
    && Known(net, outages)
    && (forall i :: 0 <= i < |outages| ==> Distinct(outages[i].affected))
    && (forall i :: 0 <= i < |outages| && outages[i].end.Some? ==> outages[i].start <= outages[i].end.value)
  }

  /** A continuation comes after its parent in the table, concerns only nodes of its parent, and its parent has
      ended. */
  ghost predicate Lineage(outages: seq<Outage>) {
    forall i :: 0 <= i < |outages| && outages[i].parent.Some? ==>
      var p := outages[i].parent.value;
      p < i && !outages[p].Active() && forall n :: n in outages[i].affected ==> n in outages[p].affected
  }

  ghost predicate ActiveIsOff(on: set<int>, outages: seq<Outage>) {
    forall i, n :: 0 <= i < |outages| && outages[i].Active() && n in outages[i].affected ==> n !in on
  }

  ghost predicate ActiveDisjoint(outages: seq<Outage>) {
    forall i, j, n | 0 <= i < j < |outages| && outages[i].Active() && outages[j].Active() ::
      n in outages[i].affected ==> n !in outages[j].affected
  }

  ghost predicate Sound(net: Network, s: State) {
    && net.Valid()
    && s.on == Live(net, s.pos)
    && WellFormed(net, s.outages)
    && Lineage(s.outages)
    && ActiveIsOff(s.on, s.outages)
    && ActiveDisjoint(s.outages)
  }

  lemma OpenEntries(net: Network, s: State, c: Command, s': State)
    requires OpenStep(net, s, c, s')
    ensures |s.outages| <= |s'.outages| <= |s.outages| + 1
    ensures forall i :: 0 <= i < |s.outages| ==> s'.outages[i] == s.outages[i]
    ensures forall i :: |s.outages| <= i < |s'.outages| ==>
      var o := s'.outages[i]; o.parent.None? && o.Active() && Lists(o.affected, s.on - s'.on)
  {
    forall i | 0 <= i < |s.outages| ensures s'.outages[i] == s.outages[i] {
      assert s'.outages[i] == s'.outages[..|s.outages|][i];
    }
  }

  lemma OpenKeepsActive(s: State, s': State)
    requires ActiveIsOff(s.on, s.outages) && ActiveDisjoint(s.outages) && s'.on <= s.on
    requires |s.outages| <= |s'.outages| <= |s.outages| + 1
    requires forall i :: 0 <= i < |s.outages| ==> s'.outages[i] == s.outages[i]
    requires forall i :: |s.outages| <= i < |s'.outages| ==> Lists(s'.outages[i].affected, s.on - s'.on)
    ensures ActiveIsOff(s'.on, s'.outages) && ActiveDisjoint(s'.outages)
  {
  }

  lemma OpenKeepsSound(net: Network, s: State, c: Command, s': State)
    requires Sound(net, s) && OpenStep(net, s, c, s')
    ensures Sound(net, s')
  {
    LiveMonotone(net, s.pos, s'.pos);
    OpenEntries(net, s, c, s');
    OpenKeepsActive(s, s');
    assert forall n :: n in s.on ==> n in net.nodes;
  }

  /** The device a node of an ended event is attributed to; 0 when it has none. */
  function IsolatorIn(net: Network, open: set<int>, on: set<int>, affected: seq<int>, n: int): int
    requires net.Valid() && forall m :: m in affected ==> m in net.nodes
  {
    var off := StillOff(on, affected);
    if n in off then Searched(net, open, off)[n] else 0
  }

  lemma PartFacts(net: Network, open: set<int>, on: set<int>, affected: seq<int>, iso: int)
    requires net.Valid() && Distinct(affected) && forall n :: n in affected ==> n in net.nodes
    ensures var part := Part(net, open, on, affected, iso);
      && Distinct(part)
      && forall n :: n in part <==> n in affected && n !in on && IsolatorIn(net, open, on, affected, n) == iso
  {
    StillOffDistinct(on, affected);
    var off := StillOff(on, affected);
    GroupDistinct(Searched(net, open, off), off, iso);
  }

  /** Who isolates which node of which event, after the step that leads to `s'`. */
  ghost function Isolators(net: Network, s: State, s': State): (int, int) -> int
    requires net.Valid() && Known(net, s.outages)
  {
    (p: int, n: int) =>
      if 0 <= p < |s.outages| then IsolatorIn(net, s'.pos.open, s'.on, s.outages[p].affected, n) else 0
  }

  /** Entry `i` was there before the closing step; it is still active unless the step ended it. */
  ghost predicate OldEntry(s: State, closed: set<int>, s': State, i: int) {
    && 0 <= i < |s.outages| && i < |s'.outages|
    && s'.outages[i].affected == s.outages[i].affected
    && s'.outages[i].parent == s.outages[i].parent
    && s'.outages[i].start == s.outages[i].start
    && (s'.outages[i].Active() <==> s.outages[i].Active() && i !in closed)
    && (s'.outages[i].end.Some? && i in closed ==> s'.outages[i].start <= s'.outages[i].end.value)
    && (i !in closed ==> s'.outages[i].end == s.outages[i].end)
  }

  /** Entry `i` continues the ended event `p` for the nodes still off behind `iso`. */
  ghost predicate NewEntry(s: State, closed: set<int>, s': State, isoOf: (int, int) -> int, i: int, p: nat, iso: int) {
    && |s.outages| <= i < |s'.outages| && p < |s.outages| && p in closed && iso != 0
    && s'.outages[i].parent == Some(p) && s'.outages[i].Active() && Distinct(s'.outages[i].affected)
    && forall n :: n in s'.outages[i].affected <==> n in s.outages[p].affected && n !in s'.on && isoOf(p, n) == iso
  }

  /** The table after a closing step, entry by entry. */
  ghost predicate CloseShape(s: State, closed: set<int>, s': State, isoOf: (int, int) -> int, pairs: seq<(nat, int)>) {
    && (forall i :: i in closed ==> 0 <= i < |s.outages| && s.outages[i].Active())
    && (forall i, n :: 0 <= i < |s.outages| && s.outages[i].Active() && i !in closed && n in s.outages[i].affected
          ==> n !in s'.on)
    && |s'.outages| == |s.outages| + |pairs|
    && (forall i :: 0 <= i < |s.outages| ==> OldEntry(s, closed, s', i))
    && (forall k :: 0 <= k < |pairs| ==> NewEntry(s, closed, s', isoOf, |s.outages| + k, pairs[k].0, pairs[k].1))
    && Distinct(pairs)
  }

  lemma EndedShape(s: State, closed: set<int>, eff: int, s': State)
    requires |s.outages| <= |s'.outages| && s'.outages[..|s.outages|] == Ended(s.outages, closed, eff)
    requires forall i :: i in closed ==> 0 <= i < |s.outages| && s.outages[i].Active()
    ensures forall i :: 0 <= i < |s.outages| ==> OldEntry(s, closed, s', i)
  {
    forall i | 0 <= i < |s.outages| ensures OldEntry(s, closed, s', i) {
      assert s'.outages[i] == s'.outages[..|s.outages|][i];
    }
  }

  lemma ContinuedShape(net: Network, s: State, closed: set<int>, s': State, pairs: seq<(nat, int)>, now: int, k: nat)
    requires net.Valid() && WellFormed(net, s.outages) && |s.outages| <= |s'.outages|
    requires Continued(net, s'.pos.open, s'.on, s.outages, closed, pairs, s'.outages[|s.outages|..], now)
    requires k < |pairs|
    ensures NewEntry(s, closed, s', Isolators(net, s, s'), |s.outages| + k, pairs[k].0, pairs[k].1)
  {
    hide Part, IsolatorIn, Customers;
    assert s'.outages[|s.outages| + k] == s'.outages[|s.outages|..][k];
    assert (pairs[k].0, pairs[k].1) in pairs;
    PartFacts(net, s'.pos.open, s'.on, s.outages[pairs[k].0].affected, pairs[k].1);
  }

  lemma CloseEntries(net: Network, s: State, c: Command, s': State) returns (pairs: seq<(nat, int)>)
    requires net.Valid() && WellFormed(net, s.outages) && ActiveIsOff(s.on, s.outages) && CloseStep(net, s, c, s')
    ensures var closed := ClosedBy(s.outages, c.target, s'.on - s.on);
      && CloseShape(s, closed, s', Isolators(net, s, s'), pairs)
      && Continued(net, s'.pos.open, s'.on, s.outages, closed, pairs, s'.outages[|s.outages|..], c.now)
  {
    var closed := ClosedBy(s.outages, c.target, s'.on - s.on);
    pairs :| Continued(net, s'.pos.open, s'.on, s.outages, closed, pairs, s'.outages[|s.outages|..], c.now);
    EndedShape(s, closed, c.Effective(), s');
    forall k | 0 <= k < |pairs|
      ensures NewEntry(s, closed, s', Isolators(net, s, s'), |s.outages| + k, pairs[k].0, pairs[k].1)
    {
      ContinuedShape(net, s, closed, s', pairs, c.now, k);
    }
  }

  lemma CloseKeepsOff(s: State, closed: set<int>, s': State, isoOf: (int, int) -> int, pairs: seq<(nat, int)>)
    requires CloseShape(s, closed, s', isoOf, pairs)
    ensures ActiveIsOff(s'.on, s'.outages)
  {
    forall i, n | 0 <= i < |s'.outages| && s'.outages[i].Active() && n in s'.outages[i].affected
      ensures n !in s'.on
    {
      if i < |s.outages| {
        assert OldEntry(s, closed, s', i);
      } else {
        var k := i - |s.outages|;
        assert NewEntry(s, closed, s', isoOf, |s.outages| + k, pairs[k].0, pairs[k].1);
      }
    }
  }

  lemma CloseKeepsLineage(s: State, closed: set<int>, s': State, isoOf: (int, int) -> int, pairs: seq<(nat, int)>)
    requires Lineage(s.outages) && CloseShape(s, closed, s', isoOf, pairs)
    ensures Lineage(s'.outages)
  {
    forall i | 0 <= i < |s'.outages| && s'.outages[i].parent.Some?
      ensures var p := s'.outages[i].parent.value;
              p < i && !s'.outages[p].Active()
              && forall n :: n in s'.outages[i].affected ==> n in s'.outages[p].affected
    {
      if i < |s.outages| {
        assert OldEntry(s, closed, s', i);
        assert OldEntry(s, closed, s', s.outages[i].parent.value);
      } else {
        var k := i - |s.outages|;
        assert NewEntry(s, closed, s', isoOf, |s.outages| + k, pairs[k].0, pairs[k].1);
        assert OldEntry(s, closed, s', pairs[k].0);
      }
    }
  }

  lemma EntriesDisjoint(s: State, closed: set<int>, s': State, isoOf: (int, int) -> int, pairs: seq<(nat, int)>,
                        i: int, j: int, n: int)
    requires ActiveDisjoint(s.outages) && CloseShape(s, closed, s', isoOf, pairs)
    requires 0 <= i < j < |s'.outages| && s'.outages[i].Active() && s'.outages[j].Active()
    requires n in s'.outages[i].affected
    ensures n !in s'.outages[j].affected
  {
    var m := |s.outages|;
    if i < m {
      assert OldEntry(s, closed, s', i);
    } else {
      assert NewEntry(s, closed, s', isoOf, m + (i - m), pairs[i - m].0, pairs[i - m].1);
    }
    if j < m {
      assert OldEntry(s, closed, s', j);
    } else {
      assert NewEntry(s, closed, s', isoOf, m + (j - m), pairs[j - m].0, pairs[j - m].1);
    }
  }

  lemma CloseKeepsDisjoint(s: State, closed: set<int>, s': State, isoOf: (int, int) -> int, pairs: seq<(nat, int)>)
    requires ActiveDisjoint(s.outages) && CloseShape(s, closed, s', isoOf, pairs)
    ensures ActiveDisjoint(s'.outages)
  {
    forall i, j, n | 0 <= i < j < |s'.outages| && s'.outages[i].Active() && s'.outages[j].Active()
                     && n in s'.outages[i].affected
      ensures n !in s'.outages[j].affected
    {
      EntriesDisjoint(s, closed, s', isoOf, pairs, i, j, n);
    }
  }

  lemma CloseKeepsWellFormed(net: Network, s: State, closed: set<int>, s': State, isoOf: (int, int) -> int,
                             pairs: seq<(nat, int)>)
    requires WellFormed(net, s.outages) && CloseShape(s, closed, s', isoOf, pairs)
    ensures WellFormed(net, s'.outages)
  {
    forall i | 0 <= i < |s'.outages|
      ensures Distinct(s'.outages[i].affected) && forall n :: n in s'.outages[i].affected ==> n in net.nodes
      ensures s'.outages[i].end.Some? ==> s'.outages[i].start <= s'.outages[i].end.value
    {
      if i < |s.outages| {
        assert OldEntry(s, closed, s', i);
      } else {
        var k := i - |s.outages|;
        assert NewEntry(s, closed, s', isoOf, |s.outages| + k, pairs[k].0, pairs[k].1);
      }
    }
  }

  /** Every maneuver keeps the ledger sound: active events are pairwise disjoint and hold only de-energised nodes,
      and continuations stay within their ended parents. */
  lemma StepKeepsSound(net: Network, s: State, c: Command, s': State)
    requires Sound(net, s) && Step(net, s, c, s')
    ensures Sound(net, s')
  {
    if c.open {
      OpenKeepsSound(net, s, c, s');
    } else {
      var pairs := CloseEntries(net, s, c, s');
      var closed := ClosedBy(s.outages, c.target, s'.on - s.on);
      var isoOf := Isolators(net, s, s');
      CloseKeepsOff(s, closed, s', isoOf, pairs);
      CloseKeepsLineage(s, closed, s', isoOf, pairs);
      CloseKeepsDisjoint(s, closed, s', isoOf, pairs);
      CloseKeepsWellFormed(net, s, closed, s', isoOf, pairs);
    }
  }

  // ------------------------------------------------------------------ what a step does to the table, event by event

  /** Of the events before a closing, exactly those end that were caused by what is closed or hold a node that is on
      now; they end no earlier than they started, and everything else of them stays. */
  ghost predicate EndsExactly(before: seq<Outage>, after: seq<Outage>, target: Target, on: set<int>, eff: int) {
    && |before| <= |after|
    && forall i :: 0 <= i < |before| ==>
      var o := before[i];
      if o.end.None? && (o.cause == target || exists n :: n in o.affected && n in on) then
        after[i] == o.(end := Some(if o.start > eff then o.start else eff))
      else after[i] == o
  }

  ghost predicate AddsContinuation(before: seq<Outage>, after: seq<Outage>, open: set<int>, on: set<int>, now: int,
                                   k: int)
    requires |before| <= k < |after|
  {
    var o := after[k];
    && o.end.None? && o.start == now && o.cause.Device? && o.cause.id in open && o.parent.Some?
    && var p := o.parent.value;
       p < |before| && before[p].end.None? && after[p].end.Some? && o.kind == before[p].kind
       && forall n :: n in o.affected ==> n in before[p].affected && n !in on
  }

  /** Every event added by a closing is active, is attributed to an open device, starts now, and continues an event that
      the closing ended: same kind, and only nodes of it that are still off. */
  ghost predicate AddsContinuations(before: seq<Outage>, after: seq<Outage>, open: set<int>, on: set<int>, now: int) {
    forall k :: |before| <= k < |after| ==> AddsContinuation(before, after, open, on, now, k)
  }

  /** An opening that takes nothing off leaves the table; otherwise it adds one event over exactly what went off. */
  ghost predicate AddsOpening(before: seq<Outage>, after: seq<Outage>, off: set<int>, c: Command) {
    if off == {} then after == before
    else
      && |after| == |before| + 1 && after[..|before|] == before
      && var o := after[|before|];
         o == Outage(c.kind, c.target, o.affected, None, c.at.GetOr(c.now), None) && Lists(o.affected, off)
  }

  lemma {:induction false} OpeningAdds(net: Network, s: State, c: Command, s': State)
    requires OpenStep(net, s, c, s')
    ensures AddsOpening(s.outages, s'.outages, s.on - s'.on, c)
  {
    if s.on <= s'.on {
      assert s.on - s'.on == {};
    } else if s.on - s'.on == {} {
      forall n | n in s.on ensures n in s'.on {
        assert n in s'.on || n in s.on - s'.on;
      }
    }
  }

  lemma {:induction false} ClosingEnds(net: Network, s: State, c: Command, s': State)
    requires Sound(net, s) && CloseStep(net, s, c, s')
    ensures EndsExactly(s.outages, s'.outages, c.target, s'.on, c.at.GetOr(c.now))
  {
    hide Live, Part, Remains, Continued;
    var back := s'.on - s.on;
    var closed := ClosedBy(s.outages, c.target, back);
    forall i | 0 <= i < |s.outages|
      ensures var o := s.outages[i];
        if o.end.None? && (o.cause == c.target || exists n :: n in o.affected && n in s'.on) then
          s'.outages[i] == o.(end := Some(if o.start > c.at.GetOr(c.now) then o.start else c.at.GetOr(c.now)))
        else s'.outages[i] == o
    {
      var o := s.outages[i];
      assert s'.outages[i] == s'.outages[..|s.outages|][i];
      if o.end.None? {
        assert forall n :: n in o.affected ==> n !in s.on;
        assert forall n :: n in o.affected ==> (n in back <==> n in s'.on);
      }
    }
  }

  lemma {:induction false} ClosingAdds(net: Network, s: State, c: Command, s': State)
    requires Sound(net, s) && CloseStep(net, s, c, s')
    ensures AddsContinuations(s.outages, s'.outages, s'.pos.open, s'.on, c.now)
  {
    hide Live, Continued, CloseShape, ClosedBy, Ended, CloseStep, AddsContinuation;
    var pairs := CloseEntries(net, s, c, s');
    var closed := ClosedBy(s.outages, c.target, s'.on - s.on);
    ShapeLength(s, closed, s', Isolators(net, s, s'), pairs);
    var m := |s.outages|;
    forall k | m <= k < |s'.outages|
      ensures AddsContinuation(s.outages, s'.outages, s'.pos.open, s'.on, c.now, k)
    {
      OneContinuation(net, s, c, s', pairs, k - m);
      assert m + (k - m) == k;
    }
  }

  lemma ShapeLength(s: State, closed: set<int>, s': State, isoOf: (int, int) -> int, pairs: seq<(nat, int)>)
    requires CloseShape(s, closed, s', isoOf, pairs)
    ensures |s'.outages| == |s.outages| + |pairs|
  {
  }

  lemma {:induction false} OneContinuation(net: Network, s: State, c: Command, s': State, pairs: seq<(nat, int)>,
                                           j: nat)
    requires Sound(net, s) && CloseStep(net, s, c, s') && j < |pairs| && |s.outages| + j < |s'.outages|
    requires var closed := ClosedBy(s.outages, c.target, s'.on - s.on);
      && CloseShape(s, closed, s', Isolators(net, s, s'), pairs)
      && Continued(net, s'.pos.open, s'.on, s.outages, closed, pairs, s'.outages[|s.outages|..], c.now)
    ensures AddsContinuation(s.outages, s'.outages, s'.pos.open, s'.on, c.now, |s.outages| + j)
  {
    hide Live, ClosedBy, Continued, Remains, Continuation, CloseStep, Isolators, ActiveDisjoint, ActiveIsOff, Lineage;
    var m := |s.outages|;
    var closed := ClosedBy(s.outages, c.target, s'.on - s.on);
    var p, iso := pairs[j].0, pairs[j].1;
    assert NewEntry(s, closed, s', Isolators(net, s, s'), m + j, p, iso);
    assert OldEntry(s, closed, s', p);
    ContinuationIs(net, s, c, s', closed, pairs, j);
  }

  lemma ContinuationIs(net: Network, s: State, c: Command, s': State, closed: set<int>, pairs: seq<(nat, int)>, j: nat)
    requires Sound(net, s) && j < |pairs| && |s.outages| + j < |s'.outages|
    requires Continued(net, s'.pos.open, s'.on, s.outages, closed, pairs, s'.outages[|s.outages|..], c.now)
    ensures pairs[j].0 < |s.outages|
    ensures var o := s'.outages[|s.outages| + j];
      o.kind == s.outages[pairs[j].0].kind && o.cause == Device(pairs[j].1) && o.parent == Some(pairs[j].0)
      && o.start == c.now && o.end.None? && pairs[j].1 in s'.pos.open
  {
    hide Live, Customers, Part;
    var m := |s.outages|;
    var p, iso := pairs[j].0, pairs[j].1;
    assert (p, iso) in pairs;
    assert s'.outages[m..][j] == s'.outages[m + j];
    IsolatorIsOpen(net, s'.pos.open, s'.on, s.outages[p].affected, iso);
  }

  /** A device behind which customers stay off is open. */
  lemma {:induction false} IsolatorIsOpen(net: Network, open: set<int>, on: set<int>, affected: seq<int>, iso: int)
    requires net.Valid() && Distinct(affected) && forall n :: n in affected ==> n in net.nodes
    requires iso != 0 && Customers(net, Part(net, open, on, affected, iso)) > 0
    ensures iso in open
  {
    hide Part;
    var n :| n in Part(net, open, on, affected, iso);
    PartFacts(net, open, on, affected, iso);
    IsolatorIsOpenUpstream(net, open, StillOff(on, affected), n);
  }

  /** Every active event is attributed to something that is open. */
  ghost predicate CausesOpen(s: State) {
    forall i :: 0 <= i < |s.outages| && s.outages[i].end.None? ==> IsOpen(s.pos, s.outages[i].cause)
  }

  lemma {:induction false} StepKeepsCausesOpen(net: Network, s: State, c: Command, s': State)
    requires Sound(net, s) && CausesOpen(s) && Step(net, s, c, s')
    ensures CausesOpen(s')
  {
    hide Live, Continued;
    var m := |s.outages|;
    if c.open {
      OpeningAdds(net, s, c, s');
      forall i | 0 <= i < |s'.outages| && s'.outages[i].end.None? ensures IsOpen(s'.pos, s'.outages[i].cause) {
        if i < m { assert s'.outages[i] == s.outages[i]; }
      }
    } else {
      ClosingEnds(net, s, c, s');
      ClosingAdds(net, s, c, s');
      forall i | 0 <= i < |s'.outages| && s'.outages[i].end.None? ensures IsOpen(s'.pos, s'.outages[i].cause) {
        if i < m {
          assert s'.outages[i] == s.outages[i] && s.outages[i].cause != c.target;
        } else {
          assert AddsContinuation(s.outages, s'.outages, s'.pos.open, s'.on, c.now, i);
        }
      }
    }
  }
}
