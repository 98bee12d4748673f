/** What an import promises about a whole file: each feature is accounted for once, a preview tells what applying does,
    and a file that was exported and not edited changes nothing. */
module GeoLaws {
  import opened Exchange
  import opened LineEdits
  import opened GeoImport
  import opened Listings

  // ------------------------------------------------------------------ each feature once

  /** A step settles its own line: at once as unchanged or in error, or as a change to be made. */
  ghost predicate StepFits(step: Step, index: nat) {
    match step.decision
    case Decided(item) => item.index == index && (item.action == Unchanged || item.action == Error)
    case Candidate(change) =>
      && change.item.index == index && (change.item.action == Update || change.item.action == Create)
      && change.item.problem == NoProblem
  }

  lemma StepIsFit(w: Writer, world: World, f: Feature, index: nat, seen: map<string, nat>, step: Step)
    requires IsStep(w, world, f, index, seen, step)
    ensures StepFits(step, index)
  {
    hide IsReadBack, SameProps, Close, SameInside, KindOf, IdOf, Field, Normalized;
  }

  lemma StepsInit(w: Writer, world: World, features: seq<Feature>, steps: seq<Step>)
    requires AreSteps(w, world, features, steps) && steps != []
    ensures |steps| <= |features| && AreSteps(w, world, features, steps[..|steps| - 1])
    ensures IsStep(w, world, features[|steps| - 1], |steps|, SeenBefore(steps, |steps| - 1), steps[|steps| - 1])
  {
    hide IsStep;
    forall i | 0 <= i < |steps| - 1 ensures SeenBefore(steps[..|steps| - 1], i) == SeenBefore(steps, i) {}
  }

  function AllPreviews(steps: seq<Step>): seq<Item> {
    Finals(steps) + Previews(Candidates(steps), |Candidates(steps)|)
  }

  lemma {:induction false} SplitInTwo(steps: seq<Step>)
    ensures |Finals(steps)| + |Candidates(steps)| == |steps|
  {
    if steps != [] { SplitInTwo(steps[..|steps| - 1]); }
  }

  lemma {:induction false} PreviewsOfPrefix(a: seq<Change>, b: seq<Change>, k: nat)
    requires k <= |a| && k <= |b| && a[..k] == b[..k]
    ensures Previews(a, k) == Previews(b, k)
  {
    if k > 0 {
      assert a[k - 1] == a[..k][k - 1] == b[..k][k - 1] == b[k - 1];
      assert a[..k - 1] == a[..k][..k - 1] == b[..k][..k - 1] == b[..k - 1];
      PreviewsOfPrefix(a, b, k - 1);
    }
  }

  lemma PreviewsSnoc(changes: seq<Change>, change: Change)
    ensures Previews(changes + [change], |changes| + 1) == Previews(changes, |changes|) + [change.item]
  {
    assert (changes + [change])[..|changes|] == changes == changes[..|changes|];
    PreviewsOfPrefix(changes + [change], changes, |changes|);
  }

  /** In the preview of the first features of a file, each of their lines comes once, and no other. */
  lemma {:induction false} PreviewedOnce(w: Writer, world: World, features: seq<Feature>, steps: seq<Step>, index: nat)
    requires AreSteps(w, world, features, steps)
    ensures Tally(AllPreviews(steps), AtIndex(index)) == if 1 <= index <= |steps| then 1 else 0
  {
    hide AreSteps, IsStep, Tally, AllPreviews;
    if steps == [] {
      NothingPreviewed(AtIndex(index));
    } else {
      var init, step := steps[..|steps| - 1], steps[|steps| - 1];
      StepsInit(w, world, features, steps);
      StepIsFit(w, world, features[|init|], |steps|, SeenBefore(steps, |init|), step);
      PreviewedOnce(w, world, features, init, index);
      PreviewGrows(init, step, AtIndex(index));
      assert steps == init + [step];
    }
  }

  lemma NothingPreviewed(q: Query)
    ensures Tally(AllPreviews([]), q) == 0
  {
  }

  /** One more step adds one line. */
  lemma PreviewGrows(init: seq<Step>, step: Step, q: Query)
    ensures Tally(AllPreviews(init + [step]), q) == Tally(AllPreviews(init), q)
      + (if Meets(if step.decision.Decided? then step.decision.item else step.decision.change.item, q) then 1 else 0)
  {
    hide Tally, Meets;
    var finals, changes := Finals(init), Candidates(init);
    var previews := Previews(changes, |changes|);
    assert (init + [step])[..|init|] == init;
    TallyAppend(finals, previews, q);
    match step.decision {
      case Decided(item) =>
        TallySnoc(finals, item, q);
        TallyAppend(finals + [item], previews, q);
      case Candidate(change) =>
        PreviewsSnoc(changes, change);
        TallySnoc(previews, change.item, q);
        TallyAppend(finals, previews + [change.item], q);
    }
  }

  lemma SettledKeepsPlace(it: Item, reply: Reply)
    ensures Settled(it, reply).index == it.index && RowOf(Settled(it, reply)) == RowOf(it)
    ensures Settled(it, reply).action == if reply.Done? then it.action else Error
  {
  }

  /** Trying a change moves its line at most from its action to an error. */
  lemma {:induction false} OutcomesTally(changes: seq<Change>, replies: nat -> Reply, k: nat, index: nat)
    requires k <= |changes|
    ensures |Outcomes(changes, replies, k)| == k
    ensures Tally(Outcomes(changes, replies, k), AtIndex(index)) == Tally(Previews(changes, k), AtIndex(index))
  {
    hide Tally, Settled, RowOf;
    if k > 0 {
      OutcomesTally(changes, replies, k - 1, index);
      SettledKeepsPlace(changes[k - 1].item, replies(k - 1));
      TallySnoc(Outcomes(changes, replies, k - 1), Settled(changes[k - 1].item, replies(k - 1)), AtIndex(index));
      TallySnoc(Previews(changes, k - 1), changes[k - 1].item, AtIndex(index));
    }
  }

  /** The log of an import in which `k` of the changes were tried. */
  function AppliedLog(steps: seq<Step>, replies: nat -> Reply, k: nat): seq<Item>
    requires k <= |Candidates(steps)|
  {
    Finals(steps) + Outcomes(Candidates(steps), replies, k)
  }

  /** In a completed import every feature of the file has exactly one line. */
  lemma {:induction false} AppliedOnce(w: Writer, world: World, features: seq<Feature>, steps: seq<Step>,
                                       replies: nat -> Reply, index: nat)
    requires AreSteps(w, world, features, steps) && |steps| == |features|
    ensures var log := AppliedLog(steps, replies, |Candidates(steps)|);
      |log| == |features| && Tally(log, AtIndex(index)) == if 1 <= index <= |features| then 1 else 0
  {
    PreviewedOnce(w, world, features, steps, index);
    SplitInTwo(steps);
    var changes := Candidates(steps);
    hide AreSteps, Tally, Meets;
    OutcomesTally(changes, replies, |changes|, index);
    TallyAppend(Finals(steps), Outcomes(changes, replies, |changes|), AtIndex(index));
    TallyAppend(Finals(steps), Previews(changes, |changes|), AtIndex(index));
  }

  // ------------------------------------------------------------------ the figures add up

  /** The four counters of any log add up to its lines. */
  lemma {:induction false} CountersAddUp(log: seq<Item>)
    ensures Tally(log, Taken(Update)) + Tally(log, Taken(Create)) + Tally(log, Taken(Unchanged))
            + Tally(log, Taken(Error)) == |log|
  {
    if log != [] { CountersAddUp(log[..|log| - 1]); }
  }

  /** The cells of one action, added over the rows of the table. */
  function ColumnSum(table: map<string, map<Action, nat>>, rows: seq<string>, a: Action): nat {
    if rows == [] then 0 else ColumnSum(table, rows[..|rows| - 1], a) + Cell(table, rows[|rows| - 1], a)
  }

  function RowsTally(log: seq<Item>, rows: seq<string>, a: Action): nat {
    if rows == [] then 0 else RowsTally(log, rows[..|rows| - 1], a) + Tally(log, TakenIn(rows[|rows| - 1], a))
  }

  lemma {:induction false} RowsTallySnoc(log: seq<Item>, it: Item, rows: seq<string>, a: Action)
    requires Distinct(rows)
    ensures RowsTally(log + [it], rows, a)
         == RowsTally(log, rows, a) + (if it.action == a && RowOf(it) in rows then 1 else 0)
  {
    if rows != [] {
      var init, last := rows[..|rows| - 1], rows[|rows| - 1];
      RowsTallySnoc(log, it, init, a);
      TallySnoc(log, it, TakenIn(last, a));
      assert rows == init + [last] && last !in init;
    }
  }

  lemma {:induction false} RowsTallyIsTally(log: seq<Item>, rows: seq<string>, a: Action)
    requires Distinct(rows) && forall it :: it in log ==> RowOf(it) in rows
    ensures RowsTally(log, rows, a) == Tally(log, Taken(a))
  {
    if log == [] {
      NothingInRows(rows, a);
    } else {
      var init, it := log[..|log| - 1], log[|log| - 1];
      RowsTallyIsTally(init, rows, a);
      RowsTallySnoc(init, it, rows, a);
      assert log == init + [it];
    }
  }

  lemma {:induction false} NothingInRows(rows: seq<string>, a: Action)
    ensures RowsTally([], rows, a) == 0
  {
    if rows != [] { NothingInRows(rows[..|rows| - 1], a); }
  }

  /** The table by type sums, over its rows, to the counters. */
  lemma {:induction false} TableAddsUp(log: seq<Item>, table: map<string, map<Action, nat>>, rows: seq<string>,
                                       a: Action)
    requires IsTable(log, table) && Lists(rows, table.Keys)
    ensures ColumnSum(table, rows, a) == Tally(log, Taken(a))
  {
    ColumnIsRows(log, table, rows, a);
    RowsTallyIsTally(log, rows, a);
  }

  lemma {:induction false} ColumnIsRows(log: seq<Item>, table: map<string, map<Action, nat>>, rows: seq<string>,
                                        a: Action)
    requires forall row, b :: Cell(table, row, b) == Tally(log, TakenIn(row, b))
    ensures ColumnSum(table, rows, a) == RowsTally(log, rows, a)
  {
    hide Cell, Tally;
    if rows != [] { ColumnIsRows(log, table, rows[..|rows| - 1], a); }
  }

  /** All cells of the table. */
  function TableSum(table: map<string, map<Action, nat>>, rows: seq<string>): nat {
    ColumnSum(table, rows, Update) + ColumnSum(table, rows, Create)
    + ColumnSum(table, rows, Unchanged) + ColumnSum(table, rows, Error)
  }

  /** In every completed import, and in every preview, the four counters of the report add up to the features of the
      file, and so does its table by type. */
  lemma {:induction false} ReportAddsUp(w: Writer, world: World, features: seq<Feature>, steps: seq<Step>,
                                        replies: nat -> Reply, rep: ImportReport, rows: seq<string>)
    requires AreSteps(w, world, features, steps) && |steps| == |features| && rep.Valid()
    requires rep.log == AppliedLog(steps, replies, |Candidates(steps)|) || rep.log == AllPreviews(steps)
    requires Lists(rows, rep.byType.Keys)
    ensures rep.updates + rep.creates + rep.unmoved + rep.errors == |features|
    ensures TableSum(rep.byType, rows) == |features|
  {
    SplitInTwo(steps);
    OutcomesTally(Candidates(steps), replies, |Candidates(steps)|, 0);
    PreviewsLength(Candidates(steps), |Candidates(steps)|);
    hide AreSteps, Tally, IsTable, Lists, ColumnSum;
    CountersAddUp(rep.log);
    TableAddsUp(rep.log, rep.byType, rows, Update);
    TableAddsUp(rep.log, rep.byType, rows, Create);
    TableAddsUp(rep.log, rep.byType, rows, Unchanged);
    TableAddsUp(rep.log, rep.byType, rows, Error);
  }

  lemma {:induction false} PreviewsLength(changes: seq<Change>, k: nat)
    requires k <= |changes|
    ensures |Previews(changes, k)| == k
  {
    if k > 0 { PreviewsLength(changes, k - 1); }
  }

  // ------------------------------------------------------------------ preview and application

  ghost predicate AllAnnounced(changes: seq<Change>) {
    forall k :: 0 <= k < |changes| ==> changes[k].item.action == Update || changes[k].item.action == Create
  }

  lemma {:induction false} CandidatesAreAnnounced(w: Writer, world: World, features: seq<Feature>, steps: seq<Step>)
    requires AreSteps(w, world, features, steps)
    ensures AllAnnounced(Candidates(steps))
  {
    hide AreSteps, IsStep;
    if steps != [] {
      var init, step := steps[..|steps| - 1], steps[|steps| - 1];
      StepsInit(w, world, features, steps);
      StepIsFit(w, world, features[|init|], |steps|, SeenBefore(steps, |init|), step);
      CandidatesAreAnnounced(w, world, features, init);
    }
  }

  lemma TakenSnoc(log: seq<Item>, it: Item)
    ensures forall a :: Tally(log + [it], Taken(a)) == Tally(log, Taken(a)) + (if it.action == a then 1 else 0)
  {
    forall a ensures Tally(log + [it], Taken(a)) == Tally(log, Taken(a)) + (if it.action == a then 1 else 0) {
      TallySnoc(log, it, Taken(a));
    }
  }

  /** Applying finds as many errors as the preview, and one for every change that is refused; every other figure can
      only go down by those. */
  lemma {:induction false} OutcomesVersusPreviews(changes: seq<Change>, replies: nat -> Reply, k: nat)
    requires k <= |changes| && AllAnnounced(changes)
    ensures Tally(Outcomes(changes, replies, k), Taken(Error))
         == Tally(Previews(changes, k), Taken(Error)) + Refusals(replies, k)
    ensures Tally(Outcomes(changes, replies, k), Taken(Unchanged)) == Tally(Previews(changes, k), Taken(Unchanged))
    ensures Tally(Outcomes(changes, replies, k), Taken(Update)) + Tally(Outcomes(changes, replies, k), Taken(Create))
      + Refusals(replies, k) == Tally(Previews(changes, k), Taken(Update)) + Tally(Previews(changes, k), Taken(Create))
  {
    if k > 0 {
      OutcomesVersusPreviews(changes, replies, k - 1);
      var before, it := Outcomes(changes, replies, k - 1), Settled(changes[k - 1].item, replies(k - 1));
      var before', it' := Previews(changes, k - 1), changes[k - 1].item;
      SettledKeepsPlace(it', replies(k - 1));
      hide Tally, Settled;
      TakenSnoc(before, it);
      TakenSnoc(before', it');
    }
  }

  /** Applying a file of which no change is refused gives exactly the figures of its preview, by type as well. */
  lemma {:induction false} PreviewIsFaithful(steps: seq<Step>, replies: nat -> Reply, q: Query)
    requires forall k: nat :: k < |Candidates(steps)| ==> replies(k).Done?
    ensures Tally(AppliedLog(steps, replies, |Candidates(steps)|), q) == Tally(AllPreviews(steps), q)
  {
    var changes := Candidates(steps);
    TallyAppend(Finals(steps), Previews(changes, |changes|), q);
    TallyAppend(Finals(steps), Outcomes(changes, replies, |changes|), q);
    SameTally(changes, replies, |changes|, q);
  }

  lemma {:induction false} SameTally(changes: seq<Change>, replies: nat -> Reply, k: nat, q: Query)
    requires k <= |changes| && forall j: nat :: j < k ==> replies(j).Done?
    ensures Tally(Outcomes(changes, replies, k), q) == Tally(Previews(changes, k), q)
  {
    if k > 0 {
      SameTally(changes, replies, k - 1, q);
      SettledKeepsPlace(changes[k - 1].item, replies(k - 1));
      hide Tally, Settled, RowOf;
      TallySnoc(Outcomes(changes, replies, k - 1), Settled(changes[k - 1].item, replies(k - 1)), q);
      TallySnoc(Previews(changes, k - 1), changes[k - 1].item, q);
    }
  }

  // ------------------------------------------------------------------ codes of new objects

  predicate NewWithCode(step: Step) {
    step.decision.Candidate? && step.decision.change.item.action == Create && step.decision.change.input.code != ""
  }

  function KeyOf(step: Step): string
    requires step.decision.Candidate?
  {
    var input := step.decision.change.input;
    CodeKey(input.kind, input.typ, input.code)
  }

  lemma BarWithin(a: string, b: string, c: string, d: string)
    requires a + ("|" + b) == c + ("|" + d) && |a| < |c|
    ensures '|' in c
  {
    assert (a + ("|" + b))[|a|] == '|' && (c + ("|" + d))[|a|] == c[|a|];
  }

  lemma {:induction false} CutOnce(a: string, b: string, c: string, d: string)
    requires '|' !in a && '|' !in c && a + ("|" + b) == c + ("|" + d)
    ensures a == c && b == d
  {
    if |a| < |c| { BarWithin(a, b, c, d); }
    if |c| < |a| { BarWithin(c, d, a, b); }
    var s := a + ("|" + b);
    assert a == s[..|a|] && c == s[..|c|] && b == s[|a| + 1..] && d == s[|c| + 1..];
  }

  /** Two codes of new objects collide exactly when kind, type and code agree, for types without the separator. */
  lemma {:induction false} KeysCollideIff(kind: string, typ: string, code: string, kind': string, typ': string,
                                          code': string)
    requires '|' !in kind && '|' !in typ && '|' !in kind' && '|' !in typ'
    ensures CodeKey(kind, typ, code) == CodeKey(kind', typ', code') <==>
      kind == kind' && typ == typ' && code == code'
  {
    assert CodeKey(kind, typ, code) == kind + ("|" + (typ + ("|" + code)));
    assert CodeKey(kind', typ', code') == kind' + ("|" + (typ' + ("|" + code')));
    if CodeKey(kind, typ, code) == CodeKey(kind', typ', code') {
      CutOnce(kind, typ + ("|" + code), kind', typ' + ("|" + code'));
      CutOnce(typ, code, typ', code');
    }
  }

  lemma StepRemembersCode(w: Writer, world: World, f: Feature, index: nat, seen: map<string, nat>, step: Step)
    requires IsStep(w, world, f, index, seen, step)
    ensures seen.Keys <= step.seen.Keys
    ensures NewWithCode(step) ==> KeyOf(step) !in seen && KeyOf(step) in step.seen
  {
    hide IsReadBack, SameProps, Close, SameInside, KindOf, IdOf, Field, Normalized, CodeKey;
  }

  lemma StepAt(w: Writer, world: World, features: seq<Feature>, steps: seq<Step>, i: nat)
    requires AreSteps(w, world, features, steps) && i < |steps|
    ensures |steps| <= |features| && IsStep(w, world, features[i], i + 1, SeenBefore(steps, i), steps[i])
  {
    hide IsStep;
  }

  lemma {:induction false} SeenGrows(w: Writer, world: World, features: seq<Feature>, steps: seq<Step>, i: nat, j: nat)
    requires AreSteps(w, world, features, steps) && i <= j <= |steps| <= |features|
    ensures SeenBefore(steps, i).Keys <= SeenBefore(steps, j).Keys
    decreases j
  {
    hide AreSteps, IsStep;
    if i < j {
      SeenGrows(w, world, features, steps, i, j - 1);
      StepAt(w, world, features, steps, j - 1);
      StepRemembersCode(w, world, features[j - 1], j, SeenBefore(steps, j - 1), steps[j - 1]);
    }
  }

  /** No two new objects of one import have the same kind, type and (non-empty) code. */
  lemma {:induction false} NoCodeTwice(w: Writer, world: World, features: seq<Feature>, steps: seq<Step>, i: nat,
                                       j: nat)
    requires AreSteps(w, world, features, steps) && i < j < |steps|
    requires NewWithCode(steps[i]) && NewWithCode(steps[j])
    ensures KeyOf(steps[i]) != KeyOf(steps[j])
  {
    hide AreSteps, IsStep, NewWithCode, KeyOf;
    StepAt(w, world, features, steps, i);
    StepAt(w, world, features, steps, j);
    StepRemembersCode(w, world, features[i], i + 1, SeenBefore(steps, i), steps[i]);
    StepRemembersCode(w, world, features[j], j + 1, SeenBefore(steps, j), steps[j]);
    SeenGrows(w, world, features, steps, i + 1, j);
  }

  // ------------------------------------------------------------------ an exported file, not edited

  /** The object is in the database, with a geometry such as its kind has. */
  ghost predicate InDatabase(world: World, kind: string, id: int, cur: Current) {
    id > 0 &&
    if kind == "edge" then
      id in world.edges && world.edges[id] == cur && IsLine(cur.geom) && WellFormed(cur.geom.points)
    else
      && kind == "node" && id in world.nodes && world.nodes[id] == cur
      && cur.geom.Shape? && (cur.geom.kind == "Point" || cur.geom.kind == "Polygon")
  }

  predicate Holds(fields: map<string, Json>, k: string, v: Json) {
    k in fields && fields[k] == v
  }

  /** The feature an export writes for an object. */
  ghost predicate IsExport(w: Writer, kind: string, id: int, cur: Current, f: Feature) {
    && f.geometry == Single(cur.geom)
    && Holds(f.fields, "qgis_kind", Str(kind)) && Holds(f.fields, "qgis_id", Num(id as real))
    && Holds(f.fields, "type_code", Str(cur.typ)) && Holds(f.fields, "code", Str(cur.code))
    && Holds(f.fields, "name", Str(cur.name)) && Holds(f.fields, "status", Str(cur.status))
    && exists columns :: IsFlattened(w, cur.props, columns) && IsRow(columns, f.fields)
  }

  /** What only edges have: their ends and length. */
  datatype Extent = Extent(from: int, to: int, length: real)

  method ExportFeature(w: Writer, kind: string, id: int, cur: Current, energized: bool, extent: Option<Extent>)
    returns (f: Feature)
    ensures IsExport(w, kind, id, cur, f)
    ensures Holds(f.fields, "energized", Bool(energized))
    ensures extent.Some? ==>
      && Holds(f.fields, "from_node_id", Num(extent.value.from as real))
      && Holds(f.fields, "to_node_id", Num(extent.value.to as real))
      && Holds(f.fields, "length_m", Num(extent.value.length))
  {
    hide IsFlattened;
    var columns := FlattenProps(w, cur.props);
    var p := columns["qgis_kind" := Str(kind)]["qgis_id" := Num(id as real)]["type_code" := Str(cur.typ)];
    p := p["code" := Str(cur.code)]["name" := Str(cur.name)]["status" := Str(cur.status)];
    p := p["energized" := Bool(energized)];
    if extent.Some? {
      var Extent(from, to, length) := extent.value;
      p := p["from_node_id" := Num(from as real)]["to_node_id" := Num(to as real)]["length_m" := Num(length)];
    }
    assert IsRow(columns, p);
    f := Feature(p, Single(cur.geom));
  }

  /** What is read off an exported feature. */
  lemma ExportIsRead(w: Writer, world: World, kind: string, id: int, cur: Current, f: Feature)
    requires IsExport(w, kind, id, cur, f) && InDatabase(world, kind, id, cur)
    ensures id > 0 && KindOf(w, f) == kind && IdOf(w, f) == id && Normalized(f.geometry) == Some(cur.geom)
    ensures GeometryProblem(w, f) == NoProblem && Named(w, world, f) == Some(cur)
    ensures Field(w, f.fields, "type_code") == cur.typ && Field(w, f.fields, "code") == cur.code
    ensures Field(w, f.fields, "name") == cur.name && Field(w, f.fields, "status") == cur.status
    ensures !cur.geom.Broken? && Moved(kind, cur.geom, cur.geom) == None
  {
    hide IsFlattened, IsRow;
  }

  /** The verdict on an exported feature that was not edited: unchanged exactly when the object's attributes are clean;
      otherwise an update of the attributes and of nothing else. */
  lemma {:induction false} ExportedIsUnchangedIff(w: Writer, world: World, kind: string, id: int, cur: Current,
                                                  f: Feature, index: nat, seen: map<string, nat>, step: Step)
    requires IsExport(w, kind, id, cur, f) && InDatabase(world, kind, id, cur)
    requires IsStep(w, world, f, index, seen, step)
    ensures Clean(cur.props) ==> step.decision == Decided(ItemFor(w, f, index, Unchanged, NoProblem))
    ensures !Clean(cur.props) ==>
      step.decision.Candidate? && step.decision.change.item.changes == ["atribut"]
        && step.decision.change.input.geom == None
  {
    hide IsStep, IsExport, InDatabase, Clean, ItemFor, SameProps, IsReadBack, IsFlattened, IsRow, Compared;
    ExportIsRead(w, world, kind, id, cur, f);
    var props := StepOfExport(w, world, f, index, seen, step, cur);
    var columns := ColumnsOf(w, kind, id, cur, f);
    UnchangedIffClean(w, cur.props, columns, f.fields, props);
    OnlyAttributesDiffer(w, f, index, cur, props, !SameProps(w, cur.props, props));
  }

  lemma ColumnsOf(w: Writer, kind: string, id: int, cur: Current, f: Feature) returns (columns: map<string, Json>)
    requires IsExport(w, kind, id, cur, f)
    ensures IsFlattened(w, cur.props, columns) && IsRow(columns, f.fields)
  {
    hide IsFlattened, IsRow;
    columns :| IsFlattened(w, cur.props, columns) && IsRow(columns, f.fields);
  }

  lemma StepOfExport(w: Writer, world: World, f: Feature, index: nat, seen: map<string, nat>, step: Step, cur: Current)
    returns (props: map<string, Json>)
    requires IsStep(w, world, f, index, seen, step)
    requires GeometryProblem(w, f) == NoProblem && IdOf(w, f) > 0 && Named(w, world, f) == Some(cur)
    requires Normalized(f.geometry) == Some(cur.geom) && !cur.geom.Broken?
      && Moved(KindOf(w, f), cur.geom, cur.geom) == None
    ensures IsReadBack(f.fields, props)
    ensures step.decision == Compared(w, f, index, cur, props, !SameProps(w, cur.props, props), None)
  {
    hide KindOf, IdOf, Normalized, GeometryProblem, Named, Moved, Compared, SameProps, IsReadBack;
    props :| IsReadBack(f.fields, props) &&
      step == Step(Compared(w, f, index, cur, props, !SameProps(w, cur.props, props),
        Moved(KindOf(w, f), cur.geom, cur.geom)), seen);
  }

  lemma OnlyAttributesDiffer(w: Writer, f: Feature, index: nat, cur: Current, props: map<string, Json>, differ: bool)
    requires Field(w, f.fields, "type_code") == cur.typ && Field(w, f.fields, "code") == cur.code
    requires Field(w, f.fields, "name") == cur.name && Field(w, f.fields, "status") == cur.status
    ensures var d := Compared(w, f, index, cur, props, differ, None);
      if differ then d.Candidate? && d.change.item.changes == ["atribut"] && d.change.input.geom == None
      else d == Decided(ItemFor(w, f, index, Unchanged, NoProblem))
  {
    hide Field, KindOf, IdOf;
  }

  /** What each feature of a file was exported from. */
  datatype Source = Source(kind: string, id: int, cur: Current)

  ghost predicate AllExported(w: Writer, world: World, features: seq<Feature>, sources: seq<Source>) {
    |sources| == |features| && forall i :: 0 <= i < |features| ==>
      IsExport(w, sources[i].kind, sources[i].id, sources[i].cur, features[i])
      && InDatabase(world, sources[i].kind, sources[i].id, sources[i].cur)
  }

  lemma AllFinal(steps: seq<Step>)
    ensures (forall i :: 0 <= i < |steps| ==> steps[i].decision.Decided?) <==> Candidates(steps) == []
  {
    if steps != [] {
      AllFinal(steps[..|steps| - 1]);
      var last := |steps| - 1;
      if steps[last].decision.Decided? {
        forall i | 0 <= i < last ensures steps[..last][i] == steps[i] {}
      }
    }
  }

  /** A whole file that was exported and not edited asks for no change exactly when the attributes of every object in it
      are clean. */
  lemma {:induction false} ReimportIsNoOpIff(w: Writer, world: World, features: seq<Feature>, sources: seq<Source>,
                                             steps: seq<Step>)
    requires AllExported(w, world, features, sources) && AreSteps(w, world, features, steps) && |steps| == |features|
    ensures Candidates(steps) == [] <==> forall i :: 0 <= i < |sources| ==> Clean(sources[i].cur.props)
  {
    hide IsExport, InDatabase, IsStep, Clean, ItemFor;
    forall i | 0 <= i < |steps| ensures steps[i].decision.Decided? <==> Clean(sources[i].cur.props) {
      var Source(kind, id, cur) := sources[i];
      ExportedIsUnchangedIff(w, world, kind, id, cur, features[i], i + 1, SeenBefore(steps, i), steps[i]);
    }
    AllFinal(steps);
  }

  // ------------------------------------------------------------------ the lines and the changes, one by one

  /** The change a feature asks for, and the line it is settled with at once. */
  function AskedAt(steps: seq<Step>): nat -> Option<Change> {
    (i: nat) => if i < |steps| && steps[i].decision.Candidate? then Some(steps[i].decision.change) else None
  }

  function SettledAt(steps: seq<Step>): nat -> Option<Item> {
    (i: nat) => if i < |steps| && steps[i].decision.Decided? then Some(steps[i].decision.item) else None
  }

  /** The changes asked for and the lines settled at once are those of the features, in the order of the file. */
  lemma {:induction false} StepsArePicked(steps: seq<Step>, n: nat)
    requires n <= |steps|
    ensures Picks(n, AskedAt(steps), Candidates(steps[..n]))
    ensures Picks(n, SettledAt(steps), Finals(steps[..n]))
  {
    hide Picks;
    if n == 0 {
      PicksNothing(AskedAt(steps));
      PicksNothing(SettledAt(steps));
    } else {
      StepsArePicked(steps, n - 1);
      assert steps[..n][..n - 1] == steps[..n - 1] && steps[..n][n - 1] == steps[n - 1];
      PicksNext(n - 1, AskedAt(steps), Candidates(steps[..n - 1]));
      PicksNext(n - 1, SettledAt(steps), Finals(steps[..n - 1]));
    }
  }

  /** Every change asked for comes from a feature of the file and says what that feature says; they come in the order of
      the file. */
  lemma {:induction false} EveryChangeIsMeant(w: Writer, world: World, features: seq<Feature>, steps: seq<Step>, i: nat)
    requires AreSteps(w, world, features, steps) && i < |steps| && steps[i].decision.Candidate?
    ensures var asked, f, change := Candidates(steps), features[i], steps[i].decision.change;
      && HowMany(i, AskedAt(steps)) < |asked| && asked[HowMany(i, AskedAt(steps))] == change
      && if IdOf(w, f) > 0 then
           var table := if KindOf(w, f) == "edge" then world.edges else world.nodes;
           IdOf(w, f) in table && AsksForUpdate(w, f, i + 1, table[IdOf(w, f)], change)
         else AsksForCreation(w, world, f, i + 1, SeenBefore(steps, i), change)
  {
    hide AsksForUpdate, AsksForCreation, IsStep, Remembers, MovesTo, HowMany, IdOf, KindOf;
    StepMeans(w, world, features[i], i + 1, SeenBefore(steps, i), steps[i]);
    StepsArePicked(steps, |steps|);
    assert steps[..|steps|] == steps;
    assert AskedAt(steps)(i) == Some(steps[i].decision.change);
  }

  /** The outcome of a change is its line as announced, with the new id if it created something; a refused change is an
      error and otherwise as announced. */
  lemma {:induction false} OutcomeIs(changes: seq<Change>, replies: nat -> Reply, k: nat, j: nat)
    requires j < k <= |changes|
    ensures var all, it := Outcomes(changes, replies, k), changes[j].item;
      && |all| == k
      && all[j].index == it.index && all[j].kind == it.kind && all[j].typ == it.typ && all[j].code == it.code
      && all[j].changes == it.changes
      && match replies(j)
         case Done(id) =>
           all[j].action == it.action && all[j].problem == it.problem
           && all[j].id == (if it.action == Create then id else it.id)
         case NotDone => all[j].action == Error && all[j].problem == EditRefused && all[j].id == it.id
  {
    OutcomesTally(changes, replies, k, 0);
    OutcomesTally(changes, replies, k - 1, 0);
    if j < k - 1 { OutcomeIs(changes, replies, k - 1, j); }
  }

  function DoneAt(replies: nat -> Reply): nat -> Option<int> {
    (i: nat) => if replies(i).Done? then Some(replies(i).id) else None
  }

  /** The results are the ids of the changes made, in the order in which they were made; the other changes were
      refused. */
  lemma {:induction false} ResultsArePicked(replies: nat -> Reply, k: nat)
    ensures Picks(k, DoneAt(replies), DoneIds(replies, k))
    ensures Refusals(replies, k) == k - HowMany(k, DoneAt(replies))
  {
    hide Picks, HowMany;
    if k == 0 {
      PicksNothing(DoneAt(replies));
      assert HowMany(0, DoneAt(replies)) == 0 by { HowManyOfNone(DoneAt(replies)); }
    } else {
      ResultsArePicked(replies, k - 1);
      PicksNext(k - 1, DoneAt(replies), DoneIds(replies, k - 1));
      HowManyNext(k - 1, DoneAt(replies));
    }
  }

  function ListedAt(log: seq<Item>): nat -> Option<Item> {
    (i: nat) => if i < |log| && log[i].action != Unchanged then Some(log[i]) else None
  }

  lemma {:induction false} ShownIsPicked(log: seq<Item>, n: nat)
    requires n <= |log|
    ensures Picks(n, ListedAt(log), Shown(log[..n]))
  {
    hide Picks;
    if n == 0 {
      PicksNothing(ListedAt(log));
    } else {
      ShownIsPicked(log, n - 1);
      assert log[..n] == log[..n - 1] + [log[n - 1]];
      ShownSnoc(log[..n - 1], log[n - 1]);
      PicksNext(n - 1, ListedAt(log), Shown(log[..n - 1]));
    }
  }

  /** A report shows the lines that are not unchanged, in their order, the first 5000 of them. */
  lemma {:induction false} ReportShows(rep: ImportReport, i: nat)
    requires rep.Valid() && i < |rep.log|
    ensures var place := HowMany(i, ListedAt(rep.log));
      && |rep.items| <= 5000
      && (rep.log[i].action != Unchanged && place < 5000 ==>
            place < |rep.items| && rep.items[place] == rep.log[i])
    ensures |rep.items| == (if HowMany(|rep.log|, ListedAt(rep.log)) < 5000 then HowMany(|rep.log|, ListedAt(rep.log))
                            else 5000)
  {
    hide Tally, IsTable, Shown, HowMany;
    ShownIsPicked(rep.log, |rep.log|);
    assert rep.log[..|rep.log|] == rep.log;
    assert ListedAt(rep.log)(i).Some? <==> rep.log[i].action != Unchanged;
  }

  /** What a figure counts. */
  predicate Counted(it: Item, q: Query) {
    match q
    case Taken(a) => it.action == a
    case TakenIn(row, a) => it.action == a && (it.typ == row != "" || (it.typ == "" && row == "-"))
    case AtIndex(i) => it.index == i
  }

  function CountedAt(log: seq<Item>, q: Query): nat -> Option<Item> {
    (i: nat) => if i < |log| && Counted(log[i], q) then Some(log[i]) else None
  }

  lemma CountedIsMet(it: Item, q: Query)
    ensures Counted(it, q) <==> Meets(it, q)
  {
  }

  /** A figure of a log is the number of its lines that count for it. */
  lemma {:induction false} TallyCounts(log: seq<Item>, q: Query, n: nat)
    requires n <= |log|
    ensures Tally(log[..n], q) == HowMany(n, CountedAt(log, q))
  {
    hide Tally, Counted, Meets, HowMany;
    if n == 0 {
      HowManyOfNone(CountedAt(log, q));
      assert Tally([], q) == 0 by { NothingTallied(q); }
    } else {
      TallyCounts(log, q, n - 1);
      assert log[..n] == log[..n - 1] + [log[n - 1]];
      TallySnoc(log[..n - 1], log[n - 1], q);
      CountedIsMet(log[n - 1], q);
      HowManyNext(n - 1, CountedAt(log, q));
    }
  }

  lemma NothingTallied(q: Query)
    ensures Tally([], q) == 0
  {
  }
}
