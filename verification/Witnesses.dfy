/** Runs and networks in which what the general results except does happen. */
module Witnesses {
  import opened Listings
  import opened Network
  import opened Isolation
  import opened Ledger
  import opened Accounts
  import opened Restoration

  // ------------------------------------------------------------------ runs that drop a customer

  /** Source 1, three-way switch 2, customer 3. */
  function Spur(): (net: Network)
    ensures net.Valid()
  {
    Network(map[1 := Node(true, false, 0, 0, false, 0, 0), 2 := Node(false, true, 3, 0, false, 1, 1),
                3 := Node(false, false, 0, 1, false, 2, 2)],
            map[11 := Line(1, 2), 12 := Line(2, 3)])
  }

  predicate SpurPosition(pos: Position) {
    pos.open <= {2, 3} && pos.cut <= {12} && pos.ways <= {(2, 12)}
  }

  lemma SpurLive(pos: Position)
    requires SpurPosition(pos)
    ensures Live(Spur(), pos) == if pos == Position({}, {}, {}) then {1, 2, 3} else {1, 2}
  {
    var net := Spur();
    assert IsPath(net, pos, [1], 1);
    assert Conducts(net, pos, 11, 1, 2);
    assert Feeds(net, pos, 1, 2);
    assert IsPath(net, pos, [1, 2], 2);
    if pos == Position({}, {}, {}) {
      assert Conducts(net, pos, 12, 2, 3);
      assert Feeds(net, pos, 2, 3);
      assert IsPath(net, pos, [1, 2, 3], 3);
    } else {
      forall a, b | a in {1, 2} && Feeds(net, pos, a, b) ensures b in {1, 2} {
        var e :| Conducts(net, pos, e, a, b);
        assert 2 in pos.open || 3 in pos.open || 12 in pos.cut || (2, 12) in pos.ways;
      }
      LiveIsLeast(net, pos, {1, 2});
    }
  }

  lemma SpurSearched(open: set<int>)
    requires open <= {3}
    ensures Searched(Spur(), open, [3]) == map[3 := 0]
  {
    var net := Spur();
    assert [3][..0] == [];
    assert Walk(net, open, map[], 3, 3) == Walk(net, open, map[], 3, 2) == Walk(net, open, map[], 3, 1) == 0;
    assert Searched(net, open, []) == map[];
  }

  /** With switch 2 closed nothing open is upstream of customer 3: it has no isolator. */
  lemma SpurHasNoIsolator(open: set<int>)
    requires open <= {3}
    ensures IsolatorIn(Spur(), open, {1, 2}, [3], 3) == 0
  {
    hide Searched;
    assert [3][..0] == [];
    assert StillOff({1, 2}, [3]) == [3];
    SpurSearched(open);
  }

  function SpurEvent(): Outage {
    Outage("GANGGUAN", Device(2), [3], None, 0, None)
  }

  lemma SpurNothingRemains(open: set<int>, iso: int)
    requires iso != 0 && open <= {3}
    ensures Customers(Spur(), Part(Spur(), open, {1, 2}, [3], iso)) == 0
  {
    SpurHasNoIsolator(open);
    PartFacts(Spur(), open, {1, 2}, [3], iso);
  }

  lemma SpurClosedBy()
    ensures ClosedBy([SpurEvent()], Device(2), {}) == {0}
  {
  }

  lemma SpurEnded()
    ensures Ended([SpurEvent()], {0}, 20) == [SpurEvent().(end := Some(20))]
  {
  }

  /** Customer 3 is cut off behind switch 2, which is now closed. */
  predicate Detached(pos: Position) {
    SpurPosition(pos) && 2 !in pos.open && pos != Position({}, {}, {})
  }

  lemma SpurCloses(s: State, cmd: Command, s': State)
    requires Detached(s'.pos) && s'.pos == Place(s.pos, Device(2), false)
    requires s.on == {1, 2} && s.outages == [SpurEvent()] && cmd == Command(Device(2), false, "", None, 20)
    requires s'.on == {1, 2} && s'.outages == [SpurEvent().(end := Some(20))]
    ensures Known(Spur(), s.outages) && Step(Spur(), s, cmd, s')
  {
    hide Part, IsolatorIn, Live, Ended, Customers, ClosedBy;
    var net := Spur();
    SpurLive(s'.pos);
    var closed := ClosedBy(s.outages, cmd.target, s'.on - s.on);
    SpurClosedBy();
    SpurEnded();
    forall p: nat, iso | p in closed ensures !Remains(net, s'.pos.open, {1, 2}, s.outages, p, iso) {
      if iso != 0 { SpurNothingRemains(s'.pos.open, iso); }
    }
    assert |s'.outages[1..]| == 0 && s'.on - s.on == {};
    var none: seq<(nat, int)> := [];
    assert Continued(net, s'.pos.open, {1, 2}, s.outages, closed, none, s'.outages[1..], 20);
  }

  lemma SpurDrops(s: State, cmd: Command, s': State)
    requires Detached(s'.pos) && cmd == Command(Device(2), false, "", None, 20)
    requires s.on == {1, 2} && s.outages == [SpurEvent()] && s'.on == {1, 2}
    ensures Known(Spur(), s.outages) && Dropped(Spur(), s, cmd, s', 3)
  {
    hide Live, IsolatorIn;
    SpurHasNoIsolator(s'.pos.open);
    assert 0 in ClosedBy(s.outages, cmd.target, s'.on - s.on);
  }

  /** One new event over the nodes that went dark. */
  ghost predicate OpenedOver(s: State, cmd: Command, s': State) {
    exists dark :: Lists(dark, s.on - s'.on)
                   && s'.outages == s.outages + [Outage(cmd.kind, cmd.target, dark, None, cmd.now, None)]
  }

  lemma Opens(net: Network, s: State, cmd: Command, s': State)
    requires net.Valid() && cmd.open && cmd.at.None? && Known(net, s.outages)
    requires s'.pos == Place(s.pos, cmd.target, true) && s'.on == Live(net, s'.pos)
    requires if s.on <= s'.on then s'.outages == s.outages
             else OpenedOver(s, cmd, s')
    ensures Step(net, s, cmd, s')
  {
  }

  /** Open switch 2; cut line 12, or open the way of switch 2 towards it, or disconnect customer 3 itself; close switch
      2: customer 3 is still off but no active event holds it any more. Each of the three commands is one the graph
      accepts. */
  lemma DetachedCustomerIsDropped(t: Target) returns (states: seq<State>, cmds: seq<Command>)
    requires t in {Cut(12), Way(2, 12), Device(3)}
    ensures IsRun(Spur(), states, cmds) && IsCustomer(Spur(), 3) && !NeverDropped(Spur(), states, cmds, 3)
    ensures 3 !in states[|cmds|].on && !Covered(states[|cmds|].outages, 3)
    ensures forall k :: 0 <= k < |cmds| ==>
      cmds[k].target in {Device(2), t} && CheckTarget(Spur(), cmds[k].target).None?
  {
    hide Step, Dropped, Live, Known;
    var p0, p1 := Position({}, {}, {}), Position({2}, {}, {});
    var p2 := Place(p1, t, true);
    var p3 := Place(p2, Device(2), false);
    var s0, s1 := State(p0, {1, 2, 3}, []), State(p1, {1, 2}, [SpurEvent()]);
    var s2, s3 := State(p2, {1, 2}, [SpurEvent()]), State(p3, {1, 2}, [SpurEvent().(end := Some(20))]);
    var c0 := Command(Device(2), true, "GANGGUAN", None, 0);
    var c1 := Command(t, true, "PEMELIHARAAN", None, 10);
    var c2 := Command(Device(2), false, "", None, 20);
    SpurLive(p0);
    SpurLive(p1);
    SpurLive(p2);
    SpurOutagesKnown();
    assert Lists([3], s0.on - s1.on);
    assert [] + [SpurEvent()] == [SpurEvent()];
    Opens(Spur(), s0, c0, s1);
    Opens(Spur(), s1, c1, s2);
    SpurCloses(s2, c2, s3);
    SpurDrops(s2, c2, s3);
    states, cmds := RunOfThree(Spur(), s0, c0, s1, c1, s2, c2, s3);
    assert Dropped(Spur(), states[2], cmds[2], states[3], 3);
    assert forall i :: !Covers(s3.outages, i, 3);
  }

  lemma SpurOutagesKnown()
    ensures Known(Spur(), []) && Known(Spur(), [SpurEvent()])
  {
  }

  lemma RunOfThree(net: Network, s0: State, c0: Command, s1: State, c1: Command, s2: State, c2: Command, s3: State)
    returns (states: seq<State>, cmds: seq<Command>)
    requires Fresh(net, s0) && Known(net, s0.outages) && Step(net, s0, c0, s1)
    requires Known(net, s1.outages) && Step(net, s1, c1, s2)
    requires Known(net, s2.outages) && Step(net, s2, c2, s3)
    ensures states == [s0, s1, s2, s3] && cmds == [c0, c1, c2] && IsRun(net, states, cmds)
  {
    hide Step, Known;
    states, cmds := [s0, s1, s2, s3], [c0, c1, c2];
    forall i | 0 <= i < |cmds| ensures Known(net, states[i].outages) && Step(net, states[i], cmds[i], states[i + 1]) {
      if i == 0 { assert states[i] == s0 && cmds[i] == c0 && states[i + 1] == s1; }
      else if i == 1 { assert states[i] == s1 && cmds[i] == c1 && states[i + 1] == s2; }
      else { assert states[i] == s2 && cmds[i] == c2 && states[i + 1] == s3; }
    }
    RunIfSteps(net, states, cmds);
  }

  lemma RunIfSteps(net: Network, states: seq<State>, cmds: seq<Command>)
    requires |states| == |cmds| + 1 && Fresh(net, states[0])
    requires forall i :: 0 <= i < |cmds| ==>
      Known(net, states[i].outages) && Step(net, states[i], cmds[i], states[i + 1])
    ensures IsRun(net, states, cmds)
  {
    hide Step, Known;
  }

  // ------------------------------------------------------------------ runs with chains of any length

  /** Switches 2 and 3 open or closed, line 12 between them whole or cut. */
  predicate FeederPosition(pos: Position) {
    pos.open <= {2, 3} && pos.cut <= {12} && pos.ways == {}
  }

  lemma FeederLive(pos: Position)
    requires FeederPosition(pos)
    ensures Live(Feeder(), pos) ==
      if 2 in pos.open || 12 in pos.cut then {1, 2} else if 3 in pos.open then {1, 2, 3} else {1, 2, 3, 4}
  {
    var net := Feeder();
    assert IsPath(net, pos, [1], 1);
    assert Conducts(net, pos, 11, 1, 2);
    assert Feeds(net, pos, 1, 2);
    assert IsPath(net, pos, [1, 2], 2);
    if 2 in pos.open || 12 in pos.cut {
      FeederDark(pos);
    } else {
      assert Conducts(net, pos, 12, 2, 3);
      assert Feeds(net, pos, 2, 3);
      assert IsPath(net, pos, [1, 2, 3], 3);
      if 3 in pos.open {
        forall a, b | a in {1, 2, 3} && Feeds(net, pos, a, b) ensures b in {1, 2, 3} {
          var e :| Conducts(net, pos, e, a, b);
        }
        LiveIsLeast(net, pos, {1, 2, 3});
      } else {
        assert Conducts(net, pos, 13, 3, 4);
        assert Feeds(net, pos, 3, 4);
        assert IsPath(net, pos, [1, 2, 3, 4], 4);
      }
    }
  }

  lemma FeederSearched(e: int)
    requires e == 2 || e == 3
    ensures Searched(Feeder(), {e}, [4]) == map[4 := e]
  {
    var net, open := Feeder(), {e};
    assert [4][..0] == [];
    assert Walk(net, open, map[], 4, 4) == Walk(net, open, map[], 4, 3) == e;
    assert Searched(net, open, []) == map[];
  }

  /** With line 12 cut and one of the switches open, customer 4 is isolated by that switch. */
  lemma FeederPart(e: int, iso: int)
    requires e == 2 || e == 3
    ensures Part(Feeder(), {e}, {1, 2}, [4], iso) == if iso == e then [4] else []
  {
    hide Searched;
    assert [4][..0] == [];
    assert StillOff({1, 2}, [4]) == [4];
    FeederSearched(e);
    assert GroupOf(map[4 := e], [4], iso) == if iso == e then [4] else [];
  }

  lemma FeederRemains(e: int, base: seq<Outage>, i: nat, iso: int)
    requires (e == 2 || e == 3) && Known(Feeder(), base) && i < |base| && base[i].affected == [4]
    ensures Remains(Feeder(), {e}, {1, 2}, base, i, iso) <==> iso == e
  {
    hide Part;
    FeederPart(e, iso);
    assert Customers(Feeder(), []) == 0;
    assert 4 in [4] && Customers(Feeder(), [4]) > 0;
  }

  /** Number of an event's ancestors. */
  function Ancestors(outages: seq<Outage>, i: nat): nat
    requires i < |outages|
  {
    if outages[i].parent.Some? && outages[i].parent.value < i then
      1 + Ancestors(outages, outages[i].parent.value) else 0
  }

  lemma {:induction false} SameAncestors(a: seq<Outage>, b: seq<Outage>, i: nat)
    requires i < |a| && i < |b| && forall k :: 0 <= k <= i ==> a[k].parent == b[k].parent
    ensures Ancestors(a, i) == Ancestors(b, i)
  {
    if a[i].parent.Some? && a[i].parent.value < i { SameAncestors(a, b, a[i].parent.value); }
  }

  /** Line 12 is cut and switch `d` open; event `i`, the `n`-th continuation, holds customer 4 and is attributed to
      `d`. */
  ghost predicate Linked(s: State, i: nat, n: nat, d: int) {
    && (d == 2 || d == 3) && s.pos == Position({d}, {12}, {}) && s.on == {1, 2}
    && i < |s.outages| && s.outages[i].Active() && s.outages[i].cause == Device(d) && s.outages[i].affected == [4]
    && Ancestors(s.outages, i) == n
    && (forall j :: 0 <= j < |s.outages| && j != i && s.outages[j].Active() ==> s.outages[j].cause == Cut(12))
  }

  /** The state after opening the other switch and closing `d`: the event has ended and one more continuation is
      open. */
  ghost function Handed(s: State, i: nat, e: int): State
    requires i < |s.outages|
  {
    var next := Outage(s.outages[i].kind, Device(e), [4], Some(i), 0, None);
    State(Position({e}, {12}, {}), {1, 2}, Ended(s.outages, {i}, 0) + [next])
  }

  lemma HandedIsLinked(s: State, i: nat, n: nat, d: int)
    requires Linked(s, i, n, d)
    ensures Linked(Handed(s, i, 5 - d), |s.outages|, n + 1, 5 - d)
  {
    var s' := Handed(s, i, 5 - d);
    assert forall k :: 0 <= k < |s.outages| ==> s'.outages[k] == Ended(s.outages, {i}, 0)[k];
    SameAncestors(s.outages, s'.outages, i);
  }

  lemma LinkedClosedBy(s: State, i: nat, n: nat, d: int)
    requires Linked(s, i, n, d)
    ensures ClosedBy(s.outages, Device(d), {}) == {i}
  {
  }

  /** Closing `d` leaves customer 4 to the other switch, and nothing else to anything. */
  lemma OneContinuation(base: seq<Outage>, i: nat, e: int, tail: seq<Outage>)
    requires (e == 2 || e == 3) && Known(Feeder(), base) && i < |base| && base[i].affected == [4]
    requires tail == [Outage(base[i].kind, Device(e), [4], Some(i), 0, None)]
    ensures Continued(Feeder(), {e}, {1, 2}, base, {i}, [(i, e)], tail, 0)
  {
    hide Part, Remains, Known;
    FeederPart(e, e);
    var pairs: seq<(nat, int)> := [(i, e)];
    forall p: nat, iso ensures (p, iso) in pairs <==> p in {i} && Remains(Feeder(), {e}, {1, 2}, base, p, iso) {
      if p in {i} { FeederRemains(e, base, i, iso); }
    }
  }

  lemma HandedByClosing(s: State, i: nat, n: nat, d: int, mid: State)
    requires Linked(s, i, n, d) && Known(Feeder(), s.outages)
    requires mid == State(Position({2, 3}, {12}, {}), {1, 2}, s.outages)
    ensures Step(Feeder(), mid, Command(Device(d), false, "", None, 0), Handed(s, i, 5 - d))
  {
    hide Part, Live, Customers, ClosedBy, Remains, Ended, Continued, Ancestors, Known;
    var s' := Handed(s, i, 5 - d);
    assert s'.pos == Place(mid.pos, Device(d), false);
    FeederLive(s'.pos);
    assert s'.on - mid.on == {};
    LinkedClosedBy(s, i, n, d);
    var m := |s.outages|;
    assert s'.outages[..m] == Ended(s.outages, {i}, 0);
    assert s'.outages[m..] == [Outage(s.outages[i].kind, Device(5 - d), [4], Some(i), 0, None)];
    OneContinuation(s.outages, i, 5 - d, s'.outages[m..]);
  }

  lemma RunGrows(net: Network, states: seq<State>, cmds: seq<Command>, cmd: Command, s: State)
    requires IsRun(net, states, cmds) && |states| == |cmds| + 1
    requires net.Valid() && Known(net, states[|cmds|].outages) && Step(net, states[|cmds|], cmd, s)
    ensures IsRun(net, states + [s], cmds + [cmd])
  {
    hide Step, Known;
    var longer, more := states + [s], cmds + [cmd];
    forall i | 0 <= i < |more| ensures Known(net, longer[i].outages) && Step(net, longer[i], more[i], longer[i + 1]) {
      if i < |cmds| { assert longer[i] == states[i] && longer[i + 1] == states[i + 1] && more[i] == cmds[i]; }
    }
    RunIfSteps(net, longer, more);
  }

  function FirstEvent(): Outage {
    Outage("GANGGUAN", Device(3), [4], None, 0, None)
  }

  function CutEvent(): Outage {
    Outage("GANGGUAN", Cut(12), [3], None, 0, None)
  }

  lemma FirstOpening(s0: State, s1: State)
    requires s0 == State(Position({}, {}, {}), {1, 2, 3, 4}, [])
    requires s1 == State(Position({3}, {}, {}), {1, 2, 3}, [FirstEvent()])
    ensures Fresh(Feeder(), s0) && Known(Feeder(), []) && Known(Feeder(), [FirstEvent()])
    ensures Step(Feeder(), s0, Command(Device(3), true, "GANGGUAN", None, 0), s1)
  {
    hide Step, Live;
    FeederLive(s0.pos);
    FeederLive(s1.pos);
    assert Lists([4], s0.on - s1.on) && s1.outages == s0.outages + [FirstEvent()];
    Opens(Feeder(), s0, Command(Device(3), true, "GANGGUAN", None, 0), s1);
  }

  lemma SecondOpening(s1: State, s2: State)
    requires s1 == State(Position({3}, {}, {}), {1, 2, 3}, [FirstEvent()])
    requires s2 == State(Position({3}, {12}, {}), {1, 2}, [FirstEvent(), CutEvent()])
    requires Known(Feeder(), [FirstEvent()])
    ensures Step(Feeder(), s1, Command(Cut(12), true, "GANGGUAN", None, 0), s2)
  {
    hide Step, Live;
    FeederLive(s2.pos);
    assert Lists([3], s1.on - s2.on) && s2.outages == s1.outages + [CutEvent()];
    Opens(Feeder(), s1, Command(Cut(12), true, "GANGGUAN", None, 0), s2);
  }

  lemma FirstLink() returns (states: seq<State>, cmds: seq<Command>)
    ensures IsRun(Feeder(), states, cmds) && Linked(states[|cmds|], 0, 0, 3)
  {
    hide Step, Live, Known, Fresh, IsRun;
    var s0 := State(Position({}, {}, {}), {1, 2, 3, 4}, []);
    var s1 := State(Position({3}, {}, {}), {1, 2, 3}, [FirstEvent()]);
    var s2 := State(Position({3}, {12}, {}), {1, 2}, [FirstEvent(), CutEvent()]);
    FirstOpening(s0, s1);
    SecondOpening(s1, s2);
    RunIfSteps(Feeder(), [s0], []);
    var c0, c1 := Command(Device(3), true, "GANGGUAN", None, 0), Command(Cut(12), true, "GANGGUAN", None, 0);
    RunGrows(Feeder(), [s0], [], c0, s1);
    RunGrows(Feeder(), [s0] + [s1], [] + [c0], c1, s2);
    states, cmds := [s0] + [s1] + [s2], [] + [c0] + [c1];
  }

  /** Two maneuvers add one continuation. */
  lemma GrowsOnce(states: seq<State>, cmds: seq<Command>, i: nat, n: nat, d: int)
    returns (states': seq<State>, cmds': seq<Command>, i': nat)
    requires IsRun(Feeder(), states, cmds) && |states| == |cmds| + 1 && Linked(states[|cmds|], i, n, d)
    ensures IsRun(Feeder(), states', cmds') && |states'| == |cmds'| + 1 && Linked(states'[|cmds'|], i', n + 1, 5 - d)
  {
    hide Step, Live, Known, Sound, IsRun, Ancestors, Handed, Lineage;
    RunIsSound(Feeder(), states, cmds);
    var s := states[|cmds|];
    SoundIsKnown(s);
    var mid := State(Position({2, 3}, {12}, {}), {1, 2}, s.outages);
    var open, close := Command(Device(5 - d), true, "MANUVER", None, 0), Command(Device(d), false, "", None, 0);
    assert mid.pos == Place(s.pos, open.target, true);
    FeederLive(mid.pos);
    Opens(Feeder(), s, open, mid);
    HandedByClosing(s, i, n, d, mid);
    HandedIsLinked(s, i, n, d);
    hide Linked;
    RunGrows(Feeder(), states, cmds, open, mid);
    RunGrows(Feeder(), states + [mid], cmds + [open], close, Handed(s, i, 5 - d));
    states', cmds', i' := states + [mid] + [Handed(s, i, 5 - d)], cmds + [open] + [close], |s.outages|;
  }

  /** However long: some run ends with an active event that has `n` ancestors and holds a customer. */
  lemma {:induction false} ChainsGrow(n: nat) returns (states: seq<State>, cmds: seq<Command>, i: nat, d: int)
    ensures IsRun(Feeder(), states, cmds) && Linked(states[|cmds|], i, n, d)
  {
    hide Linked;
    if n == 0 {
      states, cmds := FirstLink();
      i, d := 0, 3;
    } else {
      states, cmds, i, d := ChainsGrow(n - 1);
      states, cmds, i := GrowsOnce(states, cmds, i, n - 1, d);
      d := 5 - d;
    }
  }

  lemma SoundIsKnown(s: State)
    requires Sound(Feeder(), s)
    ensures Known(Feeder(), s.outages) && Lineage(s.outages)
  {
    hide Live;
  }

  // ------------------------------------------------------------------ a dashboard that shows more off than affected

  /** The whole table, in its order. */
  function AllPlaces(n: nat): (places: seq<nat>)
    ensures |places| == n && forall k :: 0 <= k < n ==> places[k] == k
  {
    seq(n, k requires 0 <= k < n => k)
  }

  function AllRows(outages: seq<Outage>): (rows: seq<Row>)
    ensures |rows| == |outages| && forall k: nat :: k < |rows| ==> rows[k] == RowOf(outages, k)
  {
    seq(|outages|, k requires 0 <= k < |outages| => RowOf(outages, k))
  }

  /** With the whole table loaded, the loaded ancestors are the ancestors. */
  lemma {:induction false} DepthIsAncestors(outages: seq<Outage>, idx: map<int, nat>, i: nat)
    requires i < |outages| && Lineage(outages) && Indexed(AllRows(outages), idx)
    ensures Depth(AllRows(outages), idx, i) == Ancestors(outages, i)
  {
    var rows := AllRows(outages);
    assert rows[i] == RowOf(outages, i);
    if outages[i].parent.Some? {
      var p := outages[i].parent.value;
      assert rows[p].id == p + 1 && rows[p].id in idx && idx[p + 1] == p;
      DepthIsAncestors(outages, idx, p);
    }
  }

  lemma LongChainIsClamped(s: State, i: nat, n: nat, d: int)
    requires Sound(Feeder(), s) && Linked(s, i, n, d) && n > GUARD
    ensures var rows := AllRows(s.outages);
      LoadedFrom(s.outages, AllPlaces(|s.outages|), rows) && Indexed(rows, IndexOf(rows, |rows|))
      && var f := Filter("", rows[RootAt(rows, IndexOf(rows, |rows|), i, GUARD)].id);
         !NeverClamped(rows, IndexOf(rows, |rows|), CustomerWeight(Feeder()), f)
  {
    hide Live, Sound, RootAt, Ancestors, NeverClamped;
    SoundIsKnown(s);
    var places, rows := AllPlaces(|s.outages|), AllRows(s.outages);
    var idx := IndexOf(rows, |rows|);
    LoadedIsSound(Feeder(), s, places, rows, idx);
    IndexIsExact(rows);
    DepthIsAncestors(s.outages, idx, i);
    assert rows[i] == RowOf(s.outages, i) && rows[i].affected == [4] && rows[i].Active();
    assert Sum(CustomerWeight(Feeder()), [4]) == 1;
    StoppedShort(rows, idx, CustomerWeight(Feeder()), i);
  }

  /** A run, and a filter under which the dashboard shows more customers off than affected: the exception to
      Restoration.DashboardAddsUp occurs. */
  lemma {:induction false} FilterOutrunsGuard()
    returns (states: seq<State>, cmds: seq<Command>, places: seq<nat>, rows: seq<Row>, f: Filter)
    ensures IsRun(Feeder(), states, cmds) && LoadedFrom(states[|cmds|].outages, places, rows)
    ensures Indexed(rows, IndexOf(rows, |rows|))
    ensures !AddsUp(rows, IndexOf(rows, |rows|), CustomerWeight(Feeder()), f)
  {
    var i, d;
    states, cmds, i, d := ChainsGrow(GUARD + 1);
    RunIsSound(Feeder(), states, cmds);
    hide Sound, RootAt, Linked, NeverClamped, AddsUp, Indexed, IndexOf, LoadedFrom, Step, Live;
    var outages := states[|cmds|].outages;
    LongChainIsClamped(states[|cmds|], i, GUARD + 1, d);
    places, rows := AllPlaces(|outages|), AllRows(outages);
    f := Filter("", rows[RootAt(rows, IndexOf(rows, |rows|), i, GUARD)].id);
    AddsUpIff(rows, IndexOf(rows, |rows|), CustomerWeight(Feeder()), f);
  }
}
