/** What the ledger is for: over every run of maneuvers, each customer off is in exactly one active event,
    and the recorded durations add up to the time the customer was off. */
module Accounts {
  import opened Listings
  import opened Network
  import opened Isolation
  import opened Ledger

  ghost predicate IsCustomer(net: Network, c: int) {
    c in net.nodes && net.nodes[c].customers > 0
  }

  // ------------------------------------------------------------------ coverage

  ghost predicate Covers(outages: seq<Outage>, i: int, c: int) {
    0 <= i < |outages| && outages[i].Active() && c in outages[i].affected
  }

  ghost predicate Covered(outages: seq<Outage>, c: int) {
    exists i :: Covers(outages, i, c)
  }

  ghost predicate CoveredOnce(outages: seq<Outage>, c: int) {
    exists i :: Covers(outages, i, c) && forall j :: Covers(outages, j, c) ==> j == i
  }

  /** The closing maneuver ends an event that holds `c`, `c` stays off, and no isolating device is found for it. */
  ghost predicate Dropped(net: Network, s: State, cmd: Command, s': State, c: int)
    requires net.Valid() && Known(net, s.outages)
  {
    && !cmd.open && c !in s'.on
    && exists i | i in ClosedBy(s.outages, cmd.target, s'.on - s.on) ::
         c in s.outages[i].affected && IsolatorIn(net, s'.pos.open, s'.on, s.outages[i].affected, c) == 0
  }

  lemma OpenCovers(net: Network, s: State, cmd: Command, s': State, c: int)
    requires Sound(net, s) && OpenStep(net, s, cmd, s') && c in net.nodes && c !in s'.on
    requires c !in s.on ==> Covered(s.outages, c)
    ensures Covered(s'.outages, c)
  {
    OpenEntries(net, s, cmd, s');
    if c in s.on {
      assert Covers(s'.outages, |s.outages|, c);
    } else {
      var i :| Covers(s.outages, i, c);
      assert Covers(s'.outages, i, c);
    }
  }

  lemma CloseCovers(net: Network, s: State, cmd: Command, s': State, c: int)
    requires Sound(net, s) && CloseStep(net, s, cmd, s') && IsCustomer(net, c) && c !in s'.on
    requires Covered(s.outages, c) && !Dropped(net, s, cmd, s', c)
    requires !cmd.open
    ensures Covered(s'.outages, c)
  {
    var pairs := CloseEntries(net, s, cmd, s');
    var closed := ClosedBy(s.outages, cmd.target, s'.on - s.on);
    var i :| Covers(s.outages, i, c);
    assert OldEntry(s, closed, s', i);
    if i in closed {
      var affected := s.outages[i].affected;
      var iso := IsolatorIn(net, s'.pos.open, s'.on, affected, c);
      PartFacts(net, s'.pos.open, s'.on, affected, iso);
      assert c in Part(net, s'.pos.open, s'.on, affected, iso);
      assert Remains(net, s'.pos.open, s'.on, s.outages, i, iso);
      assert (i, iso) in pairs;
      var k :| 0 <= k < |pairs| && pairs[k] == (i, iso);
      assert NewEntry(s, closed, s', Isolators(net, s, s'), |s.outages| + k, pairs[k].0, pairs[k].1);
      assert Covers(s'.outages, |s.outages| + k, c);
    } else {
      assert Covers(s'.outages, i, c);
    }
  }

  lemma NoIsolatorNoEvent(s: State, closed: set<int>, s': State, isoOf: (int, int) -> int, pairs: seq<(nat, int)>,
                          p: int, c: int)
    requires ActiveDisjoint(s.outages) && CloseShape(s, closed, s', isoOf, pairs)
    requires p in closed && c in s.outages[p].affected && isoOf(p, c) == 0
    ensures !Covered(s'.outages, c)
  {
    forall i ensures !Covers(s'.outages, i, c) {
      if 0 <= i < |s.outages| {
        assert OldEntry(s, closed, s', i);
      } else if |s.outages| <= i < |s'.outages| {
        var k := i - |s.outages|;
        assert NewEntry(s, closed, s', isoOf, |s.outages| + k, pairs[k].0, pairs[k].1);
      }
    }
  }

  lemma DroppedIsUncovered(net: Network, s: State, cmd: Command, s': State, c: int)
    requires Sound(net, s) && Step(net, s, cmd, s') && Dropped(net, s, cmd, s', c)
    ensures Covered(s.outages, c) && !Covered(s'.outages, c)
  {
    var pairs := CloseEntries(net, s, cmd, s');
    var closed := ClosedBy(s.outages, cmd.target, s'.on - s.on);
    var p :| p in closed && c in s.outages[p].affected
             && IsolatorIn(net, s'.pos.open, s'.on, s.outages[p].affected, c) == 0;
    assert Covers(s.outages, p, c);
    NoIsolatorNoEvent(s, closed, s', Isolators(net, s, s'), pairs, p, c);
  }

  /** One step keeps every customer that is off in an event, exactly when it does not drop one. */
  lemma StepCoverageIff(net: Network, s: State, cmd: Command, s': State, c: int)
    requires Sound(net, s) && Step(net, s, cmd, s') && IsCustomer(net, c)
    requires c !in s.on ==> Covered(s.outages, c)
    ensures (c !in s'.on ==> Covered(s'.outages, c)) <==> !Dropped(net, s, cmd, s', c)
  {
    if Dropped(net, s, cmd, s', c) {
      DroppedIsUncovered(net, s, cmd, s', c);
    } else if c !in s'.on {
      if cmd.open {
        OpenCovers(net, s, cmd, s', c);
      } else {
        LiveMonotone(net, s'.pos, s.pos);
        CloseCovers(net, s, cmd, s', c);
      }
    }
  }

  // ------------------------------------------------------------------ runs

  ghost predicate Fresh(net: Network, s: State) {
    && net.Valid() && s.on == Live(net, s.pos) && s.outages == []
    && forall c :: IsCustomer(net, c) ==> c in s.on
  }

  /** A run from a network in which every customer is energised; `states[i]` is the state before command `i`. */
  ghost predicate IsRun(net: Network, states: seq<State>, cmds: seq<Command>) {
    && |states| == |cmds| + 1 && Fresh(net, states[0])
    && (forall i :: 0 <= i < |cmds| ==>
          Known(net, states[i].outages) && Step(net, states[i], cmds[i], states[i + 1]))
  }

  lemma RunPrefix(net: Network, states: seq<State>, cmds: seq<Command>)
    requires IsRun(net, states, cmds) && cmds != []
    ensures IsRun(net, states[..|states| - 1], cmds[..|cmds| - 1])
  {
  }

  /** Every state of every run is sound. */
  lemma {:induction false} RunIsSound(net: Network, states: seq<State>, cmds: seq<Command>)
    requires IsRun(net, states, cmds)
    ensures forall i :: 0 <= i < |states| ==> Sound(net, states[i])
    decreases |cmds|
  {
    if cmds != [] {
      var n := |cmds|;
      RunPrefix(net, states, cmds);
      RunIsSound(net, states[..n], cmds[..n - 1]);
      assert states[..n][n - 1] == states[n - 1];
      StepKeepsSound(net, states[n - 1], cmds[n - 1], states[n]);
      forall i | 0 <= i < |states| ensures Sound(net, states[i]) {
        if i < n { assert states[i] == states[..n][i]; }
      }
    }
  }

  /** In every state of every run each active event is attributed to something that is open; so right after a closing no
      active event is attributed to what was closed, be it a device, a line or a single way. */
  lemma {:induction false} RunCausesOpen(net: Network, states: seq<State>, cmds: seq<Command>)
    requires IsRun(net, states, cmds)
    ensures forall k, i :: 0 <= k < |states| && 0 <= i < |states[k].outages| && states[k].outages[i].end.None? ==>
      IsOpen(states[k].pos, states[k].outages[i].cause)
    ensures forall k :: 0 <= k < |cmds| && !cmds[k].open ==> NoneLeftOf(states[k + 1].outages, cmds[k].target)
  {
    RunIsSound(net, states, cmds);
    hide Sound, Step, CausesOpen;
    assert CausesOpen(states[0]) by { NoCauses(net, states[0]); }
    var n := 0;
    while n < |cmds|
      invariant 0 <= n <= |cmds| && forall k :: 0 <= k <= n ==> CausesOpen(states[k])
    {
      var s, cmd, s' := states[n], cmds[n], states[n + 1];
      StepKeepsCausesOpen(net, s, cmd, s');
      n := n + 1;
    }
    forall k | 0 <= k < |states|
      ensures forall i :: 0 <= i < |states[k].outages| && states[k].outages[i].end.None? ==>
        IsOpen(states[k].pos, states[k].outages[i].cause)
    {
      CauseIsOpen(states[k]);
    }
    forall k | 0 <= k < |cmds| && !cmds[k].open
      ensures NoneLeftOf(states[k + 1].outages, cmds[k].target)
    {
      var s, cmd, s' := states[k], cmds[k], states[k + 1];
      ClosedAfter(net, s, cmd, s');
    }
  }

  ghost predicate NoneLeftOf(outages: seq<Outage>, target: Target) {
    forall i :: 0 <= i < |outages| && outages[i].end.None? ==> outages[i].cause != target
  }

  lemma NoCauses(net: Network, s: State)
    requires Fresh(net, s)
    ensures CausesOpen(s)
  {
  }

  lemma CauseIsOpen(s: State)
    requires CausesOpen(s)
    ensures forall i :: 0 <= i < |s.outages| && s.outages[i].end.None? ==> IsOpen(s.pos, s.outages[i].cause)
  {
  }

  lemma ClosedAfter(net: Network, s: State, cmd: Command, s': State)
    requires net.Valid() && Known(net, s.outages) && Step(net, s, cmd, s') && !cmd.open
    ensures !IsOpen(s'.pos, cmd.target)
  {
    hide Live, Continued;
  }

  ghost predicate NeverDropped(net: Network, states: seq<State>, cmds: seq<Command>, c: int)
    requires IsRun(net, states, cmds)
  {
    forall i :: 0 <= i < |cmds| ==> !Dropped(net, states[i], cmds[i], states[i + 1], c)
  }

  ghost predicate OffIsCovered(s: State, c: int) {
    c !in s.on ==> Covered(s.outages, c)
  }

  lemma {:induction false} CoveredUpTo(net: Network, states: seq<State>, cmds: seq<Command>, c: int, k: nat)
    requires IsRun(net, states, cmds) && IsCustomer(net, c) && NeverDropped(net, states, cmds, c) && k < |states|
    ensures OffIsCovered(states[k], c)
  {
    hide Sound, Step, Covered, Dropped, IsCustomer, Fresh, Live, Known, IsRun, NeverDropped;
    if k == 0 {
      AllOnAtFirst(net, states, cmds, c);
    } else {
      CoveredUpTo(net, states, cmds, c, k - 1);
      StepOfRun(net, states, cmds, c, k - 1);
      StepCoverageIff(net, states[k - 1], cmds[k - 1], states[k], c);
    }
  }

  lemma StepOfRun(net: Network, states: seq<State>, cmds: seq<Command>, c: int, k: nat)
    requires IsRun(net, states, cmds) && NeverDropped(net, states, cmds, c) && k < |states| - 1
    ensures k < |cmds| && Sound(net, states[k]) && Step(net, states[k], cmds[k], states[k + 1])
    ensures !Dropped(net, states[k], cmds[k], states[k + 1], c)
  {
    hide Sound, Step, Dropped, Fresh, Known;
    RunIsSound(net, states, cmds);
  }

  lemma AllOnAtFirst(net: Network, states: seq<State>, cmds: seq<Command>, c: int)
    requires IsRun(net, states, cmds) && IsCustomer(net, c)
    ensures OffIsCovered(states[0], c)
  {
    hide Live, Step, Known;
  }

  lemma CoveredIsOnce(net: Network, s: State, c: int)
    requires Sound(net, s)
    ensures Covered(s.outages, c) ==> CoveredOnce(s.outages, c) && c !in s.on
  {
    if Covered(s.outages, c) {
      var i :| Covers(s.outages, i, c);
      forall j | Covers(s.outages, j, c) ensures j == i {
      }
    }
  }

  /** In every state of a run the customer is in an active event exactly while it is off, and then in exactly one,
      if and only if no closing maneuver of the run leaves it off without an isolating device. */
  lemma RunCoverageIff(net: Network, states: seq<State>, cmds: seq<Command>, c: int)
    requires IsRun(net, states, cmds) && IsCustomer(net, c)
    ensures (forall k :: 0 <= k < |states| ==>
               if c in states[k].on then !Covered(states[k].outages, c) else CoveredOnce(states[k].outages, c))
       <==> NeverDropped(net, states, cmds, c)
  {
    RunIsSound(net, states, cmds);
    if NeverDropped(net, states, cmds, c) {
      forall k | 0 <= k < |states|
        ensures if c in states[k].on then !Covered(states[k].outages, c) else CoveredOnce(states[k].outages, c)
      {
        CoveredUpTo(net, states, cmds, c, k);
        CoveredIsOnce(net, states[k], c);
      }
    } else {
      var i :| 0 <= i < |cmds| && Dropped(net, states[i], cmds[i], states[i + 1], c);
      DroppedIsUncovered(net, states[i], cmds[i], states[i + 1], c);
      assert c !in states[i + 1].on && !CoveredOnce(states[i + 1].outages, c);
    }
  }

  // ------------------------------------------------------------------ when nothing is dropped

  /** Every node that stays off in an event the maneuver ends has an open device strictly upstream. */
  ghost predicate AllCutOffAbove(net: Network, s: State, cmd: Command, s': State)
    requires net.Valid() && Known(net, s.outages)
  {
    !cmd.open ==>
      forall i, n | i in ClosedBy(s.outages, cmd.target, s'.on - s.on) && n in s.outages[i].affected && n !in s'.on ::
        CutOffAbove(net, s'.pos.open, n)
  }

  /** Within one event: every node that stays off has an isolating device exactly when each of them has an open device
      strictly upstream. */
  lemma {:induction false} EventIsolatedIff(net: Network, open: set<int>, on: set<int>, affected: seq<int>)
    requires net.Valid() && forall n :: n in affected ==> n in net.nodes
    ensures (forall n :: n in affected && n !in on ==> IsolatorIn(net, open, on, affected, n) != 0)
       <==> (forall n :: n in affected && n !in on ==> CutOffAbove(net, open, n))
  {
    var off := StillOff(on, affected);
    AllIsolatedIff(net, open, off);
    hide CutOffAbove, Searched, StillOff;
    assert forall n :: n in off <==> n in affected && n !in on;
    assert forall n :: n in off ==> IsolatorIn(net, open, on, affected, n) == Searched(net, open, off)[n];
  }

  /** The maneuver drops no node at all. */
  ghost predicate DropsNothing(net: Network, s: State, cmd: Command, s': State)
    requires net.Valid() && Known(net, s.outages)
  {
    forall c :: !Dropped(net, s, cmd, s', c)
  }

  /** A maneuver drops nothing exactly when every node that stays off in an event it ends has an open device strictly
      upstream. What fails it is a node behind a cut line or an open way, or itself disconnected, with no open device
      above it; a device missed through the order of the list goes unnoticed only beside such a node. */
  lemma {:induction false} NothingDroppedIff(net: Network, s: State, cmd: Command, s': State)
    requires Sound(net, s) && Step(net, s, cmd, s')
    ensures DropsNothing(net, s, cmd, s') <==> AllCutOffAbove(net, s, cmd, s')
  {
    hide Live, Step, CutOffAbove, IsolatorIn;
    if !cmd.open {
      var closed := ClosedBy(s.outages, cmd.target, s'.on - s.on);
      if AllCutOffAbove(net, s, cmd, s') {
        forall c ensures !Dropped(net, s, cmd, s', c) {
          if Dropped(net, s, cmd, s', c) {
            var i :| i in closed && c in s.outages[i].affected
                     && IsolatorIn(net, s'.pos.open, s'.on, s.outages[i].affected, c) == 0;
            EventIsolatedIff(net, s'.pos.open, s'.on, s.outages[i].affected);
            assert false;
          }
        }
      } else {
        var i, n :| i in closed && n in s.outages[i].affected && n !in s'.on && !CutOffAbove(net, s'.pos.open, n);
        EventIsolatedIff(net, s'.pos.open, s'.on, s.outages[i].affected);
        var c :| c in s.outages[i].affected && c !in s'.on
                 && IsolatorIn(net, s'.pos.open, s'.on, s.outages[i].affected, c) == 0;
        assert Dropped(net, s, cmd, s', c);
      }
    }
  }

  ghost predicate RunDropsNothing(net: Network, states: seq<State>, cmds: seq<Command>)
    requires IsRun(net, states, cmds)
  {
    forall c :: NeverDropped(net, states, cmds, c)
  }

  /** Over a run: no node is ever dropped exactly when, at every closing maneuver, whatever stays off in an ended event
      has an open device strictly upstream. */
  lemma {:induction false} NeverDroppedIff(net: Network, states: seq<State>, cmds: seq<Command>)
    requires IsRun(net, states, cmds)
    ensures RunDropsNothing(net, states, cmds)
       <==> (forall i :: 0 <= i < |cmds| ==> AllCutOffAbove(net, states[i], cmds[i], states[i + 1]))
  {
    RunIsSound(net, states, cmds);
    hide Dropped, AllCutOffAbove, Sound;
    forall i | 0 <= i < |cmds|
      ensures DropsNothing(net, states[i], cmds[i], states[i + 1])
         <==> AllCutOffAbove(net, states[i], cmds[i], states[i + 1])
    {
      assert Sound(net, states[i]);
      NothingDroppedIff(net, states[i], cmds[i], states[i + 1]);
    }
    if RunDropsNothing(net, states, cmds) {
      forall i | 0 <= i < |cmds| ensures DropsNothing(net, states[i], cmds[i], states[i + 1]) {
        var s, cmd, s' := states[i], cmds[i], states[i + 1];
        forall c ensures !Dropped(net, s, cmd, s', c) {
          assert NeverDropped(net, states, cmds, c);
        }
      }
    }
  }

  // ------------------------------------------------------------------ recorded time

  function Share(o: Outage, c: int, now: int): int {
    if c in o.affected then o.EndBy(now) - o.start else 0
  }

  /** The durations, up to `now`, of all events of the table that hold the customer. */
  function Recorded(outages: seq<Outage>, c: int, now: int): int {
    if outages == [] then 0
    else Recorded(outages[..|outages| - 1], c, now) + Share(outages[|outages| - 1], c, now)
  }

  lemma {:induction false} RecordedConcat(a: seq<Outage>, b: seq<Outage>, c: int, now: int)
    requires forall k :: 0 <= k < |b| ==> Share(b[k], c, now) == 0
    ensures Recorded(a + b, c, now) == Recorded(a, c, now)
    decreases |b|
  {
    if b == [] {
      assert a + b == a;
    } else {
      var n := |b| - 1;
      assert (a + b)[..|a + b| - 1] == a + b[..n];
      RecordedConcat(a, b[..n], c, now);
    }
  }

  /** While time passes, exactly the active event that holds the customer accrues time. */
  lemma {:induction false} RecordedAdvance(outages: seq<Outage>, c: int, t: int, t': int)
    requires ActiveDisjoint(outages)
    ensures Recorded(outages, c, t') == Recorded(outages, c, t) + if Covered(outages, c) then t' - t else 0
  {
    if outages != [] {
      var n := |outages| - 1;
      var init := outages[..n];
      RecordedAdvance(init, c, t, t');
      assert forall i :: 0 <= i < n ==> (Covers(init, i, c) <==> Covers(outages, i, c));
      if Covers(outages, n, c) {
        forall i ensures !Covers(init, i, c) {
          if 0 <= i < n { assert init[i] == outages[i]; }
        }
      } else if Covered(outages, c) {
        var i :| Covers(outages, i, c);
        assert Covers(init, i, c);
      }
    }
  }

  function Later(a: int, b: int): int {
    if a > b then a else b
  }

  /** Time an ended event loses when it is ended as of `eff` instead of `now`. */
  function Cutback(o: Outage, eff: int, now: int): int {
    now - Later(o.start, eff)
  }

  lemma {:induction false} EndedElsewhere(outages: seq<Outage>, closed: set<int>, c: int, eff: int, now: int)
    requires forall i :: 0 <= i < |outages| && i in closed ==> c !in outages[i].affected
    ensures Recorded(Ended(outages, closed, eff), c, now) == Recorded(outages, c, now)
  {
    if outages != [] {
      var n := |outages| - 1;
      EndedElsewhere(outages[..n], closed, c, eff, now);
      assert Ended(outages, closed, eff)[..n] == Ended(outages[..n], closed, eff);
    }
  }

  lemma {:induction false} EndedHere(outages: seq<Outage>, closed: set<int>, c: int, eff: int, now: int, i: int)
    requires forall k :: 0 <= k < |outages| && k in closed ==> outages[k].Active()
    requires ActiveDisjoint(outages) && 0 <= i < |outages| && i in closed && c in outages[i].affected
    ensures Recorded(Ended(outages, closed, eff), c, now)
         == Recorded(outages, c, now) - Cutback(outages[i], eff, now)
  {
    var n := |outages| - 1;
    assert Ended(outages, closed, eff)[..n] == Ended(outages[..n], closed, eff);
    if i == n {
      EndedElsewhere(outages[..n], closed, c, eff, now);
    } else {
      assert outages[..n][i] == outages[i];
      EndedHere(outages[..n], closed, c, eff, now, i);
      assert c in outages[n].affected ==> n !in closed;
    }
  }

  /** What a customer's recorded time loses at once when the given events are ended as of `eff`. */
  ghost function Adjustment(outages: seq<Outage>, closed: set<int>, c: int, eff: int, now: int): int {
    if exists i :: 0 <= i < |outages| && i in closed && c in outages[i].affected then
      var i :| 0 <= i < |outages| && i in closed && c in outages[i].affected;
      -Cutback(outages[i], eff, now)
    else 0
  }

  lemma EndedRecorded(outages: seq<Outage>, closed: set<int>, c: int, eff: int, now: int)
    requires forall k :: 0 <= k < |outages| && k in closed ==> outages[k].Active()
    requires ActiveDisjoint(outages)
    ensures Recorded(Ended(outages, closed, eff), c, now)
         == Recorded(outages, c, now) + Adjustment(outages, closed, c, eff, now)
  {
    if exists i :: 0 <= i < |outages| && i in closed && c in outages[i].affected {
      var i :| 0 <= i < |outages| && i in closed && c in outages[i].affected
               && Adjustment(outages, closed, c, eff, now) == -Cutback(outages[i], eff, now);
      EndedHere(outages, closed, c, eff, now, i);
    } else {
      EndedElsewhere(outages, closed, c, eff, now);
    }
  }

  /** The correction one step makes to a customer's recorded time because it was reported for another instant:
      an opening reported for an earlier time adds, a closing reported for an earlier time takes away. */
  ghost function Drift(s: State, cmd: Command, s': State, c: int): int {
    if cmd.open then
      if c in s.on && c !in s'.on then cmd.now - cmd.Effective() else 0
    else
      Adjustment(s.outages, ClosedBy(s.outages, cmd.target, s'.on - s.on), c, cmd.Effective(), cmd.now)
  }

  lemma OpenRecorded(net: Network, s: State, cmd: Command, s': State, c: int)
    requires Sound(net, s) && OpenStep(net, s, cmd, s') && cmd.open
    ensures Recorded(s'.outages, c, cmd.now) == Recorded(s.outages, c, cmd.now) + Drift(s, cmd, s', c)
  {
    if !(s.on <= s'.on) {
      var n := |s.outages|;
      assert s'.outages[..n] == s.outages;
      assert Share(s'.outages[n], c, cmd.now) == Drift(s, cmd, s', c);
    }
  }

  lemma CloseRecorded(net: Network, s: State, cmd: Command, s': State, c: int)
    requires Sound(net, s) && CloseStep(net, s, cmd, s') && !cmd.open
    ensures Recorded(s'.outages, c, cmd.now) == Recorded(s.outages, c, cmd.now) + Drift(s, cmd, s', c)
  {
    hide Part, IsolatorIn, Live, Remains, Recorded, Ended, Adjustment;
    var n := |s.outages|;
    var closed := ClosedBy(s.outages, cmd.target, s'.on - s.on);
    var ended := Ended(s.outages, closed, cmd.Effective());
    EndedRecorded(s.outages, closed, c, cmd.Effective(), cmd.now);
    assert s'.outages == ended + s'.outages[n..];
    assert forall k :: 0 <= k < |s'.outages[n..]| ==> Share(s'.outages[n..][k], c, cmd.now) == 0;
    RecordedConcat(ended, s'.outages[n..], c, cmd.now);
  }

  // ------------------------------------------------------------------ the balance over a run

  /** Time the customer was off, by the server's clock, from the start of the run until `until`. */
  ghost function OffTime(states: seq<State>, cmds: seq<Command>, c: int, until: int): int
    requires |states| == |cmds| + 1
    decreases |cmds|
  {
    if cmds == [] then 0
    else
      var n := |cmds|;
      var t := cmds[n - 1].now;
      OffTime(states[..n], cmds[..n - 1], c, t) + if c in states[n].on then 0 else until - t
  }

  ghost function TotalDrift(states: seq<State>, cmds: seq<Command>, c: int): int
    requires |states| == |cmds| + 1
    decreases |cmds|
  {
    if cmds == [] then 0
    else
      var n := |cmds|;
      TotalDrift(states[..n], cmds[..n - 1], c) + Drift(states[n - 1], cmds[n - 1], states[n], c)
  }

  /** Time some active event held the customer. */
  ghost function CoveredTime(states: seq<State>, cmds: seq<Command>, c: int, until: int): int
    requires |states| == |cmds| + 1
    decreases |cmds|
  {
    if cmds == [] then 0
    else
      var n := |cmds|;
      var t := cmds[n - 1].now;
      CoveredTime(states[..n], cmds[..n - 1], c, t) + if Covered(states[n].outages, c) then until - t else 0
  }

  /** Time the customer was off and no active event held it. */
  ghost function LostTime(states: seq<State>, cmds: seq<Command>, c: int, until: int): int
    requires |states| == |cmds| + 1
    decreases |cmds|
  {
    if cmds == [] then 0
    else
      var n := |cmds|;
      var t := cmds[n - 1].now;
      LostTime(states[..n], cmds[..n - 1], c, t) + if OffIsCovered(states[n], c) then 0 else until - t
  }

  /** Over any run, for any node: the recorded outage time is the time active events held it, plus the corrections for
      reported times. Partial restorations and continuations neither lose nor double count anything. */
  lemma {:induction false} RecordedIsCoveredTime(net: Network, states: seq<State>, cmds: seq<Command>, c: int,
                                                 until: int)
    requires IsRun(net, states, cmds)
    ensures Recorded(states[|cmds|].outages, c, until)
         == CoveredTime(states, cmds, c, until) + TotalDrift(states, cmds, c)
    decreases |cmds|
  {
    hide OpenStep, CloseStep, Drift, Live, Share, IsolatorIn, Covered;
    if cmds != [] {
      var n := |cmds|;
      var s, cmd, s' := states[n - 1], cmds[n - 1], states[n];
      RunPrefix(net, states, cmds);
      assert states[..n][n - 1] == s;
      RecordedIsCoveredTime(net, states[..n], cmds[..n - 1], c, cmd.now);
      RunIsSound(net, states, cmds);
      if cmd.open {
        OpenRecorded(net, s, cmd, s', c);
      } else {
        CloseRecorded(net, s, cmd, s', c);
      }
      RecordedAdvance(s'.outages, c, cmd.now, until);
    }
  }

  lemma {:induction false} CoveredOrLost(net: Network, states: seq<State>, cmds: seq<Command>, c: int, until: int)
    requires IsRun(net, states, cmds)
    ensures CoveredTime(states, cmds, c, until) + LostTime(states, cmds, c, until) == OffTime(states, cmds, c, until)
    decreases |cmds|
  {
    hide Step, Live, Covered;
    if cmds != [] {
      var n := |cmds|;
      RunPrefix(net, states, cmds);
      CoveredOrLost(net, states[..n], cmds[..n - 1], c, cmds[n - 1].now);
      RunIsSound(net, states, cmds);
      CoveredIsOnce(net, states[n], c);
    }
  }

  /** Over any run, for any node: the recorded outage time is the time it was off, less exactly the time it was off in
      no active event, plus the corrections for reported times. */
  lemma {:induction false} AccountsBalance(net: Network, states: seq<State>, cmds: seq<Command>, c: int, until: int)
    requires IsRun(net, states, cmds)
    ensures Recorded(states[|cmds|].outages, c, until)
         == OffTime(states, cmds, c, until) - LostTime(states, cmds, c, until) + TotalDrift(states, cmds, c)
  {
    RecordedIsCoveredTime(net, states, cmds, c, until);
    CoveredOrLost(net, states, cmds, c, until);
  }

  lemma {:induction false} NothingLost(states: seq<State>, cmds: seq<Command>, c: int, until: int)
    requires |states| == |cmds| + 1 && forall k :: 0 <= k < |states| ==> OffIsCovered(states[k], c)
    ensures LostTime(states, cmds, c, until) == 0
    decreases |cmds|
  {
    if cmds != [] {
      var n := |cmds|;
      NothingLost(states[..n], cmds[..n - 1], c, cmds[n - 1].now);
    }
  }

  /** A customer that is never dropped loses nothing. */
  lemma {:induction false} NeverDroppedLosesNothing(net: Network, states: seq<State>, cmds: seq<Command>, c: int,
                                                    until: int)
    requires IsRun(net, states, cmds) && IsCustomer(net, c) && NeverDropped(net, states, cmds, c)
    ensures LostTime(states, cmds, c, until) == 0
  {
    forall k | 0 <= k < |states| ensures OffIsCovered(states[k], c) {
      CoveredUpTo(net, states, cmds, c, k);
    }
    NothingLost(states, cmds, c, until);
  }

  /** The clock moves on between maneuvers, and after the last one. */
  ghost predicate TimePasses(cmds: seq<Command>, until: int) {
    && (forall i :: 0 < i < |cmds| ==> cmds[i - 1].now < cmds[i].now)
    && (cmds != [] ==> cmds[|cmds| - 1].now < until)
  }

  /** With a moving clock, any moment off in no event costs time. */
  lemma {:induction false} LostIsPositive(states: seq<State>, cmds: seq<Command>, c: int, until: int)
    requires |states| == |cmds| + 1 && TimePasses(cmds, until)
    ensures LostTime(states, cmds, c, until) >= 0
    ensures (exists k :: 0 < k < |states| && !OffIsCovered(states[k], c)) ==> LostTime(states, cmds, c, until) > 0
    decreases |cmds|
  {
    if cmds != [] {
      var n := |cmds|;
      assert n > 1 ==> cmds[n - 2].now < cmds[n - 1].now;
      LostIsPositive(states[..n], cmds[..n - 1], c, cmds[n - 1].now);
      if k :| 0 < k < |states| && !OffIsCovered(states[k], c) {
        if k < n { assert states[..n][k] == states[k]; }
      }
    }
  }

  // ------------------------------------------------------------------ maneuvers reported as they happen

  /** No maneuver is reported for another time, and the server's clock does not run backwards. */
  ghost predicate Prompt(cmds: seq<Command>) {
    && (forall i :: 0 <= i < |cmds| ==> cmds[i].Effective() == cmds[i].now)
    && (forall i, j :: 0 <= i < j < |cmds| ==> cmds[i].now <= cmds[j].now)
  }

  ghost predicate StartedBy(outages: seq<Outage>, now: int) {
    forall i :: 0 <= i < |outages| ==> outages[i].start <= now
  }

  lemma CloseStarts(net: Network, s: State, cmd: Command, s': State)
    requires Sound(net, s) && CloseStep(net, s, cmd, s') && StartedBy(s.outages, cmd.now) && !cmd.open
    ensures StartedBy(s'.outages, cmd.now)
  {
    hide Part, IsolatorIn, Live, Remains, Sound, ClosedBy;
    var n := |s.outages|;
    var closed := ClosedBy(s.outages, cmd.target, s'.on - s.on);
    forall i | 0 <= i < |s'.outages| ensures s'.outages[i].start <= cmd.now {
      if i < n {
        assert s'.outages[i] == s'.outages[..n][i] == Ended(s.outages, closed, cmd.Effective())[i];
      } else {
        assert s'.outages[i] == s'.outages[n..][i - n];
      }
    }
  }

  lemma StepStarts(net: Network, s: State, cmd: Command, s': State)
    requires Sound(net, s) && Step(net, s, cmd, s') && StartedBy(s.outages, cmd.now) && cmd.Effective() <= cmd.now
    ensures StartedBy(s'.outages, cmd.now)
  {
    hide Live, CloseStep, Sound;
    if cmd.open {
      OpenEntries(net, s, cmd, s');
    } else {
      CloseStarts(net, s, cmd, s');
    }
  }

  lemma {:induction false} PromptHasNoDrift(net: Network, states: seq<State>, cmds: seq<Command>, c: int)
    requires IsRun(net, states, cmds) && Prompt(cmds)
    ensures TotalDrift(states, cmds, c) == 0
    ensures cmds != [] ==> StartedBy(states[|cmds|].outages, cmds[|cmds| - 1].now)
    decreases |cmds|
  {
    if cmds != [] {
      var n := |cmds|;
      RunPrefix(net, states, cmds);
      PromptHasNoDrift(net, states[..n], cmds[..n - 1], c);
      assert states[..n][n - 1] == states[n - 1];
      RunIsSound(net, states, cmds);
      assert StartedBy(states[n - 1].outages, cmds[n - 1].now) by {
        if n > 1 { assert cmds[..n - 1][n - 2].now <= cmds[n - 1].now; }
      }
      StepStarts(net, states[n - 1], cmds[n - 1], states[n]);
    }
  }

  /** When maneuvers are recorded as they happen, over any run, the recorded outage time of a customer is the time it
      was off, less exactly the time it was off in no active event; and nothing is missing if it is never dropped. */
  lemma {:induction false} RecordedIsOffTime(net: Network, states: seq<State>, cmds: seq<Command>, c: int, until: int)
    requires IsRun(net, states, cmds) && Prompt(cmds)
    ensures Recorded(states[|cmds|].outages, c, until)
         == OffTime(states, cmds, c, until) - LostTime(states, cmds, c, until)
    ensures IsCustomer(net, c) && NeverDropped(net, states, cmds, c) ==> LostTime(states, cmds, c, until) == 0
  {
    AccountsBalance(net, states, cmds, c, until);
    PromptHasNoDrift(net, states, cmds, c);
    if IsCustomer(net, c) && NeverDropped(net, states, cmds, c) {
      NeverDroppedLosesNothing(net, states, cmds, c, until);
    }
  }

  /** With a clock that moves on, the recorded outage time of a customer is the time it was off if and only if no
      maneuver of the run drops it. */
  lemma {:induction false} RecordedIsOffTimeIff(net: Network, states: seq<State>, cmds: seq<Command>, c: int,
                                                until: int)
    requires IsRun(net, states, cmds) && IsCustomer(net, c) && Prompt(cmds) && TimePasses(cmds, until)
    ensures Recorded(states[|cmds|].outages, c, until) == OffTime(states, cmds, c, until)
       <==> NeverDropped(net, states, cmds, c)
  {
    RecordedIsOffTime(net, states, cmds, c, until);
    LostIsPositive(states, cmds, c, until);
    if !NeverDropped(net, states, cmds, c) {
      var i :| 0 <= i < |cmds| && Dropped(net, states[i], cmds[i], states[i + 1], c);
      RunIsSound(net, states, cmds);
      DroppedIsUncovered(net, states[i], cmds[i], states[i + 1], c);
      assert !OffIsCovered(states[i + 1], c);
    }
  }

  // ------------------------------------------------------------------ right accounts, told from the network

  /** When at every closing maneuver all that stays off in an ended event has an open device strictly upstream, every
      customer's recorded outage time is the time it was off. */
  lemma {:induction false} CutOffAboveIsEnough(net: Network, states: seq<State>, cmds: seq<Command>, c: int, until: int)
    requires IsRun(net, states, cmds) && IsCustomer(net, c) && Prompt(cmds)
    requires forall i :: 0 <= i < |cmds| ==> AllCutOffAbove(net, states[i], cmds[i], states[i + 1])
    ensures Recorded(states[|cmds|].outages, c, until) == OffTime(states, cmds, c, until)
  {
    hide AllCutOffAbove, IsRun, Recorded;
    NeverDroppedIff(net, states, cmds);
    assert NeverDropped(net, states, cmds, c);
    RecordedIsOffTime(net, states, cmds, c, until);
  }

  /** In no event that the maneuver ends does a search stop at an open device listed earlier. */
  ghost predicate NothingSkipped(net: Network, s: State, cmd: Command, s': State)
    requires net.Valid() && Known(net, s.outages)
  {
    !cmd.open ==>
      forall i | i in ClosedBy(s.outages, cmd.target, s'.on - s.on) ::
        NoneSkips(net, s'.pos.open, StillOff(s'.on, s.outages[i].affected))
  }

  /** The maneuver ends no event of the node, or the node comes back on, or it has an open device strictly upstream. */
  ghost predicate CutOffOrOn(net: Network, s: State, cmd: Command, s': State, c: int)
    requires net.Valid() && Known(net, s.outages)
  {
    !cmd.open && c !in s'.on ==>
      forall i | i in ClosedBy(s.outages, cmd.target, s'.on - s.on) && c in s.outages[i].affected ::
        CutOffAbove(net, s'.pos.open, c)
  }

  lemma {:induction false} IsolatedIff(net: Network, open: set<int>, on: set<int>, affected: seq<int>, c: int)
    requires net.Valid() && Distinct(affected) && forall n :: n in affected ==> n in net.nodes
    requires c in affected && c !in on && NoneSkips(net, open, StillOff(on, affected))
    ensures IsolatorIn(net, open, on, affected, c) != 0 <==> CutOffAbove(net, open, c)
  {
    hide NoneSkips, Nearest, CutOffAbove, Searched;
    var off := StillOff(on, affected);
    StillOffDistinct(on, affected);
    IsolatorsNearestIff(net, open, off);
    assert Searched(net, open, off)[c] == Nearest(net, open, c);
    NearestIff(net, open, c);
  }

  /** Where no search skips a device, a maneuver drops a customer exactly when it ends its event, leaves it off and
      nothing is open strictly above it. */
  lemma {:induction false} DroppedIff(net: Network, s: State, cmd: Command, s': State, c: int)
    requires Sound(net, s) && Step(net, s, cmd, s') && NothingSkipped(net, s, cmd, s')
    ensures Dropped(net, s, cmd, s', c) <==> !CutOffOrOn(net, s, cmd, s', c)
  {
    hide Live, Step, CutOffAbove, IsolatorIn, NoneSkips, StillOff;
    if !cmd.open && c !in s'.on {
      var closed := ClosedBy(s.outages, cmd.target, s'.on - s.on);
      forall i | i in closed && c in s.outages[i].affected
        ensures IsolatorIn(net, s'.pos.open, s'.on, s.outages[i].affected, c) != 0 <==> CutOffAbove(net, s'.pos.open, c)
      {
        IsolatedIff(net, s'.pos.open, s'.on, s.outages[i].affected, c);
      }
    }
  }

  /** Where no search skips a device and the clock moves on: a customer's recorded outage time is the time it was off
      if and only if, at every closing maneuver that ends an event of it and leaves it off, some device strictly above
      it is open. */
  lemma {:induction false} RightIffCutOff(net: Network, states: seq<State>, cmds: seq<Command>, c: int, until: int)
    requires IsRun(net, states, cmds) && IsCustomer(net, c) && Prompt(cmds) && TimePasses(cmds, until)
    requires forall i :: 0 <= i < |cmds| ==> NothingSkipped(net, states[i], cmds[i], states[i + 1])
    ensures Recorded(states[|cmds|].outages, c, until) == OffTime(states, cmds, c, until)
       <==> (forall i :: 0 <= i < |cmds| ==> CutOffOrOn(net, states[i], cmds[i], states[i + 1], c))
  {
    hide Dropped, CutOffOrOn, NothingSkipped, Sound, Recorded;
    RecordedIsOffTimeIff(net, states, cmds, c, until);
    RunIsSound(net, states, cmds);
    forall i | 0 <= i < |cmds|
      ensures Dropped(net, states[i], cmds[i], states[i + 1], c)
         <==> !CutOffOrOn(net, states[i], cmds[i], states[i + 1], c)
    {
      var s, cmd, s' := states[i], cmds[i], states[i + 1];
      assert Sound(net, s);
      DroppedIff(net, s, cmd, s', c);
    }
  }
}
