/** Importing an edited GeoJSON file: every feature is compared with the object it names, or proposed as a new object;
    the report accounts for each feature once. */
module GeoImport {
  import opened Exchange
  import opened LineEdits
  import opened Listings

  datatype RawGeometry = Single(geometry: Geometry) | Multi(parts: seq<Geometry>)

  /** A feature of the file. */
  datatype Feature = Feature(fields: map<string, Json>, geometry: RawGeometry)

  /** An object as the database has it. */
  datatype Current = Current(typ: string, code: string, name: string, status: string, props: map<string, Json>,
                             geom: Geometry)

  /** What the import asks the rest of the system: the objects by id; whether a kind of feature may have a type and
      status; whether such an object is there already; whether identifying attributes are free; whether a point of a
      type would lie on another object. */
  datatype World = World(
    nodes: map<int, Current>, edges: map<int, Current>,
    typeFits: (string, string, string) -> bool,
    alreadyThere: (string, string, string, Geometry) -> bool,
    ssotFree: map<string, Json> -> bool,
    occupied: (string, Geometry) -> bool)

  datatype Action = Update | Create | Unchanged | Error

  datatype Problem =
    | NoProblem | BadGeometry | EdgeNeedsLine | NodeNeedsPoint | IdNotFound | TypeRequired | TypeRefused
    | DuplicateInFile(first: nat) | SsotTaken | Occupied | EditRefused

  datatype Item = Item(index: nat, action: Action, kind: string, id: int, typ: string, code: string,
                       changes: seq<string>, problem: Problem)

  datatype Input = Input(kind: string, typ: string, code: string, name: string, status: string,
                         props: map<string, Json>, geom: Option<Geometry>)

  datatype Change = Change(item: Item, input: Input)

  /** What becomes of a feature: a line of the report at once, or a change to be made. */
  datatype Decision = Decided(item: Item) | Candidate(change: Change)

  /** A decision, and the codes of new features met so far with the line of the first. */
  datatype Step = Step(decision: Decision, seen: map<string, nat>)

  const MAX_CHANGES := 5000
  const MAX_ITEMS := 5000

  // ------------------------------------------------------------------ one feature

  /** A multi-part geometry of one part is that part; anything else of several parts is refused. */
  function Normalized(raw: RawGeometry): Option<Geometry> {
    match raw
    case Single(g) => if g.Broken? || Kind(g) == "" then None else Some(g)
    case Multi(parts) => if |parts| == 1 && !parts[0].Broken? then Some(parts[0]) else None
  }

  function Field(w: Writer, fields: map<string, Json>, k: string): string {
    if k in fields then AsString(w, fields[k]) else ""
  }

  function KindOf(w: Writer, f: Feature): string {
    var kind, g := Field(w, f.fields, "qgis_kind"), Normalized(f.geometry);
    if kind == "node" || kind == "edge" then kind
    else if g.Some? && Kind(g.value) == "LineString" then "edge" else "node"
  }

  /** The id a feature names, 0 for none. */
  function IdOf(w: Writer, f: Feature): int {
    if "qgis_id" !in f.fields then 0
    else
      match f.fields["qgis_id"]
      case Num(n) => if n == n.Floor as real && n > 0.0 then n.Floor else 0
      case Str(s) => if w.integer(s).Some? && w.integer(s).value > 0 then w.integer(s).value else 0
      case _ => 0
  }

  function ItemFor(w: Writer, f: Feature, index: nat, action: Action, problem: Problem): Item {
    Item(index, action, KindOf(w, f), IdOf(w, f), Field(w, f.fields, "type_code"), Field(w, f.fields, "code"), [],
      problem)
  }

  /** The geometry fits the kind of object. */
  function GeometryProblem(w: Writer, f: Feature): Problem {
    var g, kind := Normalized(f.geometry), KindOf(w, f);
    if g.None? then BadGeometry
    else if kind == "edge" then if Kind(g.value) == "LineString" then NoProblem else EdgeNeedsLine
    else if Kind(g.value) == "Point" || Kind(g.value) == "Polygon" then NoProblem else NodeNeedsPoint
  }

  function Or(s: string, default: string): string {
    if s == "" then default else s
  }

  /** A part of an object, if it changes. */
  function Part<T>(b: bool, c: T): seq<T> {
    if b then [c] else []
  }

  /** A feature that names an existing object, given whether attributes and geometry differ. */
  function Compared(w: Writer, f: Feature, index: nat, cur: Current, props: map<string, Json>, differ: bool,
                    moved: Option<Geometry>): Decision {
    var typ, status := Or(Field(w, f.fields, "type_code"), cur.typ), Or(Field(w, f.fields, "status"), cur.status);
    var code, name := Field(w, f.fields, "code"), Field(w, f.fields, "name");
    var changes :=
      (Part(typ != cur.typ, "type_code") + Part(code != cur.code, "code") + Part(name != cur.name, "name"))
      + (Part(status != cur.status, "status") + Part(differ, "atribut") + Part(moved.Some?, "geometri"));
    if changes == [] then Decided(ItemFor(w, f, index, Unchanged, NoProblem))
    else
      Candidate(Change(ItemFor(w, f, index, Update, NoProblem).(changes := changes, typ := typ),
                       Input(KindOf(w, f), typ, code, name, status, props, moved)))
  }

  function CodeKey(kind: string, typ: string, code: string): string {
    kind + "|" + typ + "|" + code
  }

  /** A feature that names no object: a new one, unless something is against it. */
  function Fresh(w: Writer, world: World, f: Feature, index: nat, props: map<string, Json>, g: Geometry,
                 seen: map<string, nat>): Step
    requires !g.Broken?
  {
    var kind, typ, code := KindOf(w, f), Field(w, f.fields, "type_code"), Field(w, f.fields, "code");
    var name, status := Field(w, f.fields, "name"), Field(w, f.fields, "status");
    var key := CodeKey(kind, typ, code);
    if typ == "" then Step(Decided(ItemFor(w, f, index, Error, TypeRequired)), seen)
    else if !world.typeFits(kind, typ, status) then Step(Decided(ItemFor(w, f, index, Error, TypeRefused)), seen)
    else if world.alreadyThere(kind, typ, code, g) then Step(Decided(ItemFor(w, f, index, Unchanged, NoProblem)), seen)
    else if code != "" && key in seen then Step(Decided(ItemFor(w, f, index, Error, DuplicateInFile(seen[key]))), seen)
    else
      var seen' := if code != "" then seen[key := index] else seen;
      if !world.ssotFree(props) then Step(Decided(ItemFor(w, f, index, Error, SsotTaken)), seen')
      else if kind == "node" && Kind(g) == "Point" && world.occupied(typ, g) then
        Step(Decided(ItemFor(w, f, index, Error, Occupied)), seen')
      else
        var input := Input(kind, typ, code, name, status, props, Some(g));
        Step(Candidate(Change(ItemFor(w, f, index, Create, NoProblem), input)), seen')
  }

  function Named(w: Writer, world: World, f: Feature): Option<Current> {
    var table := if KindOf(w, f) == "edge" then world.edges else world.nodes;
    var id := IdOf(w, f);
    if id in table then Some(table[id]) else None
  }

  /** The new geometry of an object, if the file moves it. */
  ghost function Moved(kind: string, cur: Geometry, next: Geometry): Option<Geometry>
    requires !next.Broken?
  {
    if kind == "edge" && IsLine(cur) && IsLine(next) then
      if SameInside(cur.points, next.points) then None else Some(Line(Rehung(cur.points, next.points)))
    else if Close(cur, next) then None else Some(next)
  }

  /** What is asked for in place of a geometry: a line keeps its ends and takes the points between them from the
      file, if one of those moved or their number changed; anything else is replaced if any of its numbers moved. */
  ghost predicate MovesTo(kind: string, cur: Geometry, next: Geometry, geom: Option<Geometry>)
    requires !next.Broken?
  {
    if kind == "edge" && cur.Line? && next.Line? && |cur.points| >= 2 && |next.points| >= 2 then
      && (geom.Some? <==> Differ(cur.points, next.points))
      && (geom.Some? ==> geom.value.Line? && Keeps(cur.points, next.points, geom.value.points))
    else (geom.Some? <==> !Close(cur, next)) && (geom.Some? ==> geom.value == next)
  }

  lemma MovedMeans(kind: string, cur: Geometry, next: Geometry)
    requires !next.Broken?
    ensures MovesTo(kind, cur, next, Moved(kind, cur, next))
  {
    hide Close, SameInside, Differ;
    if IsLine(cur) && IsLine(next) { DifferIs(cur.points, next.points); }
  }

  /** `step` is what becomes of the `index`-th feature. */
  ghost predicate IsStep(w: Writer, world: World, f: Feature, index: nat, seen: map<string, nat>, step: Step) {
    var problem, id := GeometryProblem(w, f), IdOf(w, f);
    if problem != NoProblem then step == Step(Decided(ItemFor(w, f, index, Error, problem)), seen)
    else if id > 0 && Named(w, world, f).None? then step == Step(Decided(ItemFor(w, f, index, Error, IdNotFound)), seen)
    else
      var g := Normalized(f.geometry).value;
      exists props :: IsReadBack(f.fields, props) &&
        if id > 0 then
          var cur := Named(w, world, f).value;
          step == Step(Compared(w, f, index, cur, props, !SameProps(w, cur.props, props),
            Moved(KindOf(w, f), cur.geom, g)), seen)
        else step == Fresh(w, world, f, index, props, g, seen)
  }

  // ------------------------------------------------------------------ what a decision says

  /** The text of a column, empty if there is none. */
  function Text(w: Writer, f: Feature, k: string): string {
    if k in f.fields then AsString(w, f.fields[k]) else ""
  }

  /** The line of the report about a feature: its place in the file and what its columns say. */
  ghost predicate IsAbout(w: Writer, f: Feature, index: nat, it: Item) {
    it.index == index && it.kind == KindOf(w, f) && it.id == IdOf(w, f) && it.code == Text(w, f, "code")
  }

  /** The changes are named in a fixed order, each exactly when that part differs. */
  ghost predicate NamesChanges(changes: seq<string>, typ: bool, code: bool, name: bool, status: bool, props: bool,
                               moved: bool) {
    && ("type_code" in changes <==> typ) && ("code" in changes <==> code) && ("name" in changes <==> name)
    && ("status" in changes <==> status) && ("atribut" in changes <==> props) && ("geometri" in changes <==> moved)
    && InPartOrder(changes)
  }

  ghost predicate InPartOrder(changes: seq<string>) {
    forall i, j :: 0 <= i < j < |changes| ==> PartOf(changes[i]) < PartOf(changes[j]) <= 6
  }

  function PartOf(change: string): nat {
    match change
    case "type_code" => 1
    case "code" => 2
    case "name" => 3
    case "status" => 4
    case "atribut" => 5
    case "geometri" => 6
    case _ => 7
  }

  /** What is asked for an object that differs from its feature: code and name of the columns, type and status of the
      columns or else its own, the attributes read back, the geometry if it moved. */
  ghost predicate AsksForUpdate(w: Writer, f: Feature, index: nat, cur: Current, change: Change) {
    var it, input := change.item, change.input;
    var typ, status := Text(w, f, "type_code"), Text(w, f, "status");
    && IsAbout(w, f, index, it) && it.action == Update && it.problem == NoProblem
    && input.kind == KindOf(w, f) && input.code == Text(w, f, "code") && input.name == Text(w, f, "name")
    && input.typ == (if typ != "" then typ else cur.typ) && it.typ == input.typ
    && input.status == (if status != "" then status else cur.status)
    && IsReadBack(f.fields, input.props)
    && NamesChanges(it.changes, input.typ != cur.typ, input.code != cur.code, input.name != cur.name,
                    input.status != cur.status, !SameProps(w, cur.props, input.props), input.geom.Some?)
  }

  /** Nothing of the object differs from its feature. */
  ghost predicate SaysNothingNew(w: Writer, f: Feature, cur: Current) {
    && Text(w, f, "code") == cur.code && Text(w, f, "name") == cur.name
    && Text(w, f, "type_code") in {"", cur.typ} && Text(w, f, "status") in {"", cur.status}
    && forall props :: IsReadBack(f.fields, props) ==> SameProps(w, cur.props, props)
  }

  /** What is asked for a feature without an object: everything as its columns say, with the attributes read back. */
  ghost predicate AsksForCreation(w: Writer, world: World, f: Feature, index: nat, seen: map<string, nat>,
                                  change: Change) {
    var it, input := change.item, change.input;
    && IsAbout(w, f, index, it) && it.action == Create && it.problem == NoProblem && it.changes == []
    && it.typ == input.typ
    && input.kind == KindOf(w, f) && input.typ == Text(w, f, "type_code") != "" && input.code == Text(w, f, "code")
    && input.name == Text(w, f, "name") && input.status == Text(w, f, "status")
    && IsReadBack(f.fields, input.props) && input.geom.Some? && input.geom == Normalized(f.geometry)
    && world.typeFits(input.kind, input.typ, input.status)
    && !world.alreadyThere(input.kind, input.typ, input.code, input.geom.value) && world.ssotFree(input.props)
    && (input.code != "" ==> CodeKey(input.kind, input.typ, input.code) !in seen)
    && (input.kind == "node" && Kind(input.geom.value) == "Point" ==> !world.occupied(input.typ, input.geom.value))
  }

  /** Why a feature is refused, or what has to do with it otherwise. */
  ghost predicate IsRefusedFor(w: Writer, world: World, f: Feature, seen: map<string, nat>, problem: Problem) {
    var kind, typ, code := KindOf(w, f), Text(w, f, "type_code"), Text(w, f, "code");
    var g := Normalized(f.geometry);
    match problem
    case BadGeometry => g.None?
    case EdgeNeedsLine => g.Some? && kind == "edge" && Kind(g.value) != "LineString"
    case NodeNeedsPoint => g.Some? && kind == "node" && Kind(g.value) !in {"Point", "Polygon"}
    case IdNotFound => IdOf(w, f) > 0 && IdOf(w, f) !in (if kind == "edge" then world.edges else world.nodes)
    case TypeRequired => IdOf(w, f) == 0 && typ == ""
    case TypeRefused => IdOf(w, f) == 0 && typ != "" && !world.typeFits(kind, typ, Text(w, f, "status"))
    case DuplicateInFile(first) =>
      IdOf(w, f) == 0 && code != "" && CodeKey(kind, typ, code) in seen && first == seen[CodeKey(kind, typ, code)]
    case SsotTaken => IdOf(w, f) == 0 && exists props :: IsReadBack(f.fields, props) && !world.ssotFree(props)
    case Occupied =>
      IdOf(w, f) == 0 && kind == "node" && g.Some? && Kind(g.value) == "Point" && world.occupied(typ, g.value)
    case _ => false
  }

  /** The codes known after a feature: one more if it is new, has a code and got past the question for duplicates. */
  ghost predicate Remembers(w: Writer, f: Feature, index: nat, seen: map<string, nat>, step: Step) {
    var key := CodeKey(KindOf(w, f), Text(w, f, "type_code"), Text(w, f, "code"));
    if IdOf(w, f) == 0 && Text(w, f, "code") != ""
       && (step.decision.Candidate? || step.decision.item.problem in {SsotTaken, Occupied}) then
      key !in seen && step.seen == seen[key := index]
    else step.seen == seen
  }

  /** A decision, told by what it asks for or why it asks for nothing. */
  ghost predicate Means(w: Writer, world: World, f: Feature, index: nat, seen: map<string, nat>, step: Step) {
    var id, table := IdOf(w, f), if KindOf(w, f) == "edge" then world.edges else world.nodes;
    var g := Normalized(f.geometry);
    && Remembers(w, f, index, seen, step)
    && match step.decision
       case Candidate(change) =>
         if id > 0 then
           && id in table && AsksForUpdate(w, f, index, table[id], change) && g.Some?
           && MovesTo(KindOf(w, f), table[id].geom, g.value, change.input.geom)
         else AsksForCreation(w, world, f, index, seen, change)
       case Decided(it) =>
         && IsAbout(w, f, index, it) && it.typ == Text(w, f, "type_code") && it.changes == []
         && if it.action == Error then IsRefusedFor(w, world, f, seen, it.problem)
            else
              && it.action == Unchanged && it.problem == NoProblem && g.Some?
              && if id > 0 then
                   && id in table && SaysNothingNew(w, f, table[id])
                   && MovesTo(KindOf(w, f), table[id].geom, g.value, None)
                 else world.alreadyThere(KindOf(w, f), it.typ, it.code, g.value)
  }

  lemma IdIsNatural(w: Writer, f: Feature)
    ensures IdOf(w, f) >= 0
  {
  }

  /** Values of ascending place, all of them between two bounds. */
  ghost predicate Ordered<T(!new)>(place: T -> nat, s: seq<T>, lo: nat, hi: nat) {
    && (forall i, j :: 0 <= i < j < |s| ==> place(s[i]) < place(s[j]))
    && (forall x :: x in s ==> lo < place(x) <= hi)
  }

  lemma OneOrdered<T(!new)>(place: T -> nat, b: bool, c: T)
    requires place(c) > 0
    ensures Ordered(place, Part(b, c), place(c) - 1, place(c)) && forall x :: x in Part(b, c) <==> b && x == c
  {
  }

  lemma BothOrdered<T(!new)>(place: T -> nat, s: seq<T>, t: seq<T>, lo: nat, mid: nat, hi: nat)
    requires Ordered(place, s, lo, mid) && Ordered(place, t, mid, hi) && lo <= mid <= hi
    ensures Ordered(place, s + t, lo, hi) && forall x :: x in s + t <==> x in s || x in t
  {
    forall i, j | 0 <= i < j < |s + t| ensures place((s + t)[i]) < place((s + t)[j]) {
      if i < |s| <= j { assert s[i] in s && t[j - |s|] in t; }
    }
  }

  lemma {:induction false} ThreeOrdered<T(!new)>(place: T -> nat, b1: bool, c1: T, b2: bool, c2: T, b3: bool, c3: T)
    requires place(c1) > 0 && place(c2) == place(c1) + 1 && place(c3) == place(c1) + 2
    ensures var s := Part(b1, c1) + Part(b2, c2) + Part(b3, c3);
      && Ordered(place, s, place(c1) - 1, place(c3))
      && forall x :: x in s <==> (b1 && x == c1) || (b2 && x == c2) || (b3 && x == c3)
  {
    hide Ordered, Part;
    OneOrdered(place, b1, c1);
    OneOrdered(place, b2, c2);
    OneOrdered(place, b3, c3);
    BothOrdered(place, Part(b1, c1), Part(b2, c2), place(c1) - 1, place(c1), place(c2));
    BothOrdered(place, Part(b1, c1) + Part(b2, c2), Part(b3, c3), place(c1) - 1, place(c2), place(c3));
  }

  /** Six values of ascending place, each put in a list or not. */
  lemma {:induction false} SixOrdered<T(!new)>(place: T -> nat, b1: bool, c1: T, b2: bool, c2: T, b3: bool, c3: T,
                                               b4: bool, c4: T, b5: bool, c5: T, b6: bool, c6: T)
    requires place(c1) == 1 && place(c2) == 2 && place(c3) == 3 && place(c4) == 4 && place(c5) == 5 && place(c6) == 6
    ensures var s := (Part(b1, c1) + Part(b2, c2) + Part(b3, c3)) + (Part(b4, c4) + Part(b5, c5) + Part(b6, c6));
      && (c1 in s <==> b1) && (c2 in s <==> b2) && (c3 in s <==> b3)
      && (c4 in s <==> b4) && (c5 in s <==> b5) && (c6 in s <==> b6) && Ordered(place, s, 0, 6)
  {
    hide Ordered, Part;
    ThreeOrdered(place, b1, c1, b2, c2, b3, c3);
    ThreeOrdered(place, b4, c4, b5, c5, b6, c6);
    var s, t := Part(b1, c1) + Part(b2, c2) + Part(b3, c3), Part(b4, c4) + Part(b5, c5) + Part(b6, c6);
    BothOrdered(place, s, t, 0, 3, 6);
  }

  lemma OrderedMeans(s: seq<string>)
    requires Ordered(PartOf, s, 0, 6)
    ensures InPartOrder(s)
  {
    hide PartOf;
    forall i, j | 0 <= i < j < |s| ensures PartOf(s[i]) < PartOf(s[j]) <= 6 {
      assert s[j] in s;
    }
  }

  lemma {:induction false} AllNamed(typ: bool, code: bool, name: bool, status: bool, props: bool, moved: bool)
    ensures NamesChanges(
      (Part(typ, "type_code") + Part(code, "code") + Part(name, "name"))
      + (Part(status, "status") + Part(props, "atribut") + Part(moved, "geometri")),
      typ, code, name, status, props, moved)
  {
    hide PartOf, Part, Ordered, NamesChanges, InPartOrder;
    Parts();
    SixOrdered(PartOf, typ, "type_code", code, "code", name, "name", status, "status", props, "atribut",
               moved, "geometri");
    var s := (Part(typ, "type_code") + Part(code, "code") + Part(name, "name"))
             + (Part(status, "status") + Part(props, "atribut") + Part(moved, "geometri"));
    OrderedMeans(s);
    NamesIf(s, typ, code, name, status, props, moved);
  }

  lemma NamesIf(s: seq<string>, typ: bool, code: bool, name: bool, status: bool, props: bool, moved: bool)
    requires ("type_code" in s <==> typ) && ("code" in s <==> code) && ("name" in s <==> name)
    requires ("status" in s <==> status) && ("atribut" in s <==> props) && ("geometri" in s <==> moved)
    requires InPartOrder(s)
    ensures NamesChanges(s, typ, code, name, status, props, moved)
  {
    hide InPartOrder;
  }

  lemma NothingNamed(typ: bool, code: bool, name: bool, status: bool, props: bool, moved: bool)
    requires NamesChanges([], typ, code, name, status, props, moved)
    ensures !typ && !code && !name && !status && !props && !moved
  {
  }

  lemma Parts()
    ensures PartOf("type_code") == 1 && PartOf("code") == 2 && PartOf("name") == 3
    ensures PartOf("status") == 4 && PartOf("atribut") == 5 && PartOf("geometri") == 6
  {
  }

  lemma {:induction false} ComparedAsks(w: Writer, f: Feature, index: nat, cur: Current, props: map<string, Json>,
                                        moved: Option<Geometry>)
    requires IsReadBack(f.fields, props)
    ensures var d := Compared(w, f, index, cur, props, !SameProps(w, cur.props, props), moved);
      d.Candidate? ==> AsksForUpdate(w, f, index, cur, d.change) && d.change.input.geom == moved
  {
    hide SameProps, IsReadBack, KindOf, IdOf, AsString, NamesChanges, PartOf, Part;
    var typ, status := Or(Field(w, f.fields, "type_code"), cur.typ), Or(Field(w, f.fields, "status"), cur.status);
    AllNamed(typ != cur.typ, Field(w, f.fields, "code") != cur.code, Field(w, f.fields, "name") != cur.name,
             status != cur.status, !SameProps(w, cur.props, props), moved.Some?);
  }

  lemma {:induction false} ComparedSaysNothing(w: Writer, f: Feature, index: nat, cur: Current,
                                               props: map<string, Json>, moved: Option<Geometry>)
    requires IsReadBack(f.fields, props)
    ensures var d := Compared(w, f, index, cur, props, !SameProps(w, cur.props, props), moved);
      d.Decided? ==>
        && IsAbout(w, f, index, d.item) && d.item.typ == Text(w, f, "type_code") && d.item.changes == []
        && d.item.action == Unchanged && d.item.problem == NoProblem && moved.None? && SaysNothingNew(w, f, cur)
  {
    hide SameProps, IsReadBack, KindOf, IdOf, AsString, NamesChanges, PartOf, Part;
    forall other | IsReadBack(f.fields, other) ensures other == props { ReadBackIsUnique(f.fields, other, props); }
    var typ, status := Or(Field(w, f.fields, "type_code"), cur.typ), Or(Field(w, f.fields, "status"), cur.status);
    var code, name := Field(w, f.fields, "code"), Field(w, f.fields, "name");
    AllNamed(typ != cur.typ, code != cur.code, name != cur.name, status != cur.status, !SameProps(w, cur.props, props),
             moved.Some?);
    if Compared(w, f, index, cur, props, !SameProps(w, cur.props, props), moved).Decided? {
      NothingNamed(typ != cur.typ, code != cur.code, name != cur.name, status != cur.status,
                   !SameProps(w, cur.props, props), moved.Some?);
    }
  }

  lemma {:induction false} ComparedMeans(w: Writer, f: Feature, index: nat, cur: Current, props: map<string, Json>,
                                         moved: Option<Geometry>)
    requires IsReadBack(f.fields, props)
    ensures var d := Compared(w, f, index, cur, props, !SameProps(w, cur.props, props), moved);
      match d
      case Candidate(change) => AsksForUpdate(w, f, index, cur, change) && change.input.geom == moved
      case Decided(it) =>
        && IsAbout(w, f, index, it) && it.typ == Text(w, f, "type_code") && it.changes == []
        && it.action == Unchanged && it.problem == NoProblem && moved.None? && SaysNothingNew(w, f, cur)
  {
    hide Compared, AsksForUpdate, IsAbout, SaysNothingNew, Text, SameProps;
    ComparedAsks(w, f, index, cur, props, moved);
    ComparedSaysNothing(w, f, index, cur, props, moved);
  }

  lemma {:induction false} FreshRemembers(w: Writer, world: World, f: Feature, index: nat, props: map<string, Json>,
                                          g: Geometry, seen: map<string, nat>)
    requires !g.Broken? && IdOf(w, f) == 0
    ensures Remembers(w, f, index, seen, Fresh(w, world, f, index, props, g, seen))
  {
    hide IdOf, KindOf, AsString, CodeKey, Kind;
  }

  lemma {:induction false} FreshAsks(w: Writer, world: World, f: Feature, index: nat, props: map<string, Json>,
                                     g: Geometry, seen: map<string, nat>)
    requires !g.Broken? && IsReadBack(f.fields, props) && Normalized(f.geometry) == Some(g)
    ensures var d := Fresh(w, world, f, index, props, g, seen).decision;
      d.Candidate? ==> AsksForCreation(w, world, f, index, seen, d.change)
  {
    hide IsReadBack, IdOf, KindOf, AsString, CodeKey, Kind, Normalized;
  }

  lemma {:induction false} FreshRefuses(w: Writer, world: World, f: Feature, index: nat, props: map<string, Json>,
                                        g: Geometry, seen: map<string, nat>)
    requires !g.Broken? && IsReadBack(f.fields, props) && Normalized(f.geometry) == Some(g) && IdOf(w, f) == 0
    ensures var d := Fresh(w, world, f, index, props, g, seen).decision;
      d.Decided? ==>
        && IsAbout(w, f, index, d.item) && d.item.typ == Text(w, f, "type_code") && d.item.changes == []
        && if d.item.action == Error then IsRefusedFor(w, world, f, seen, d.item.problem)
           else
             && d.item.action == Unchanged && d.item.problem == NoProblem
             && world.alreadyThere(KindOf(w, f), d.item.typ, d.item.code, g)
  {
    hide IsReadBack, IdOf, KindOf, AsString, CodeKey, Kind, Normalized;
  }

  lemma {:induction false} FreshMeans(w: Writer, world: World, f: Feature, index: nat, props: map<string, Json>,
                                      g: Geometry, seen: map<string, nat>)
    requires !g.Broken? && IsReadBack(f.fields, props) && Normalized(f.geometry) == Some(g) && IdOf(w, f) == 0
    ensures Means(w, world, f, index, seen, Fresh(w, world, f, index, props, g, seen))
  {
    hide IsReadBack, IdOf, KindOf, Text, Fresh, Remembers, AsksForCreation, IsAbout, IsRefusedFor, Normalized;
    FreshRemembers(w, world, f, index, props, g, seen);
    FreshAsks(w, world, f, index, props, g, seen);
    FreshRefuses(w, world, f, index, props, g, seen);
  }

  /** Every decision says what it has to: what is asked for, or why nothing is. */
  lemma {:induction false} StepMeans(w: Writer, world: World, f: Feature, index: nat, seen: map<string, nat>,
                                     step: Step)
    requires IsStep(w, world, f, index, seen, step)
    ensures Means(w, world, f, index, seen, step)
  {
    IdIsNatural(w, f);
    hide SameProps, IsReadBack, IdOf, AsString, CodeKey, Compared, Fresh, AsksForUpdate, AsksForCreation,
      SaysNothingNew, Close, SameInside, Moved, MovesTo;
    var problem, id := GeometryProblem(w, f), IdOf(w, f);
    if problem == NoProblem && !(id > 0 && Named(w, world, f).None?) {
      var g := Normalized(f.geometry).value;
      var props :| IsReadBack(f.fields, props) &&
        if id > 0 then
          var cur := Named(w, world, f).value;
          step == Step(Compared(w, f, index, cur, props, !SameProps(w, cur.props, props),
            Moved(KindOf(w, f), cur.geom, g)), seen)
        else step == Fresh(w, world, f, index, props, g, seen);
      if id > 0 {
        var cur := Named(w, world, f).value;
        ComparedMeans(w, f, index, cur, props, Moved(KindOf(w, f), cur.geom, g));
        MovedMeans(KindOf(w, f), cur.geom, g);
      } else {
        FreshMeans(w, world, f, index, props, g, seen);
      }
    }
  }

  /** Which kind of object a feature is about: what its column says, else what its geometry looks like. */
  lemma {:induction false} KindMeans(w: Writer, f: Feature)
    ensures Text(w, f, "qgis_kind") in {"node", "edge"} ==> KindOf(w, f) == Text(w, f, "qgis_kind")
    ensures Text(w, f, "qgis_kind") !in {"node", "edge"} ==>
      (KindOf(w, f) == "edge" <==> exists g :: Normalized(f.geometry) == Some(g) && Kind(g) == "LineString")
    ensures KindOf(w, f) in {"node", "edge"}
  {
    var g := Normalized(f.geometry);
    if g.Some? { assert g == Some(g.value); }
  }

  /** Which object a feature names: the one whose positive id its column holds, as a number or as text. */
  lemma {:induction false} IdMeans(w: Writer, f: Feature, id: int)
    requires id > 0
    ensures var names := "qgis_id" in f.fields
              && (f.fields["qgis_id"] == Num(id as real)
                  || (f.fields["qgis_id"].Str? && w.integer(f.fields["qgis_id"].s) == Some(id)));
            IdOf(w, f) == id <==> names
  {
  }

  /** A geometry of one part in one piece is taken as it is; no other. */
  lemma NormalizedMeans(raw: RawGeometry, g: Geometry)
    ensures Normalized(raw) == Some(g) <==>
      !g.Broken? && (raw == Multi([g]) || (raw == Single(g) && Kind(g) != ""))
  {
  }

  method Decide(w: Writer, world: World, f: Feature, index: nat, seen: map<string, nat>) returns (step: Step)
    ensures IsStep(w, world, f, index, seen, step)
    ensures Means(w, world, f, index, seen, step)
  {
    step := DecideOne(w, world, f, index, seen);
    StepMeans(w, world, f, index, seen, step);
  }

  method DecideOne(w: Writer, world: World, f: Feature, index: nat, seen: map<string, nat>) returns (step: Step)
    ensures IsStep(w, world, f, index, seen, step)
  {
    hide KindOf, IdOf, ItemFor, Compared, Fresh, IsReadBack, SameProps, Close, SameInside;
    var problem, id := GeometryProblem(w, f), IdOf(w, f);
    if problem != NoProblem {
      return Step(Decided(ItemFor(w, f, index, Error, problem)), seen);
    }
    var g := Normalized(f.geometry).value;
    var props := PropsFromFields(f.fields);
    if id <= 0 {
      return Fresh(w, world, f, index, props, g, seen);
    }
    var named := Named(w, world, f);
    if named.None? {
      return Step(Decided(ItemFor(w, f, index, Error, IdNotFound)), seen);
    }
    var cur := named.value;
    var differ := PropsChanged(w, cur.props, props);
    var moved: Option<Geometry> := None;
    if KindOf(w, f) == "edge" {
      var update, changed := EdgeGeometryUpdate(cur.geom, g);
      if changed { moved := update; }
    } else {
      var close := CoordsClose(cur.geom, g);
      if !close { moved := Some(g); }
    }
    return Step(Compared(w, f, index, cur, props, differ, moved), seen);
  }

  // ------------------------------------------------------------------ the report

  function RowOf(it: Item): string {
    if it.typ == "" then "-" else it.typ
  }

  /** What lines of a report are counted for. */
  datatype Query = Taken(action: Action) | TakenIn(row: string, action: Action) | AtIndex(index: nat)

  predicate Meets(it: Item, q: Query) {
    match q
    case Taken(a) => it.action == a
    case TakenIn(row, a) => it.action == a && RowOf(it) == row
    case AtIndex(i) => it.index == i
  }

  function Tally(log: seq<Item>, q: Query): nat {
    if log == [] then 0 else Tally(log[..|log| - 1], q) + (if Meets(log[|log| - 1], q) then 1 else 0)
  }

  lemma TallySnoc(log: seq<Item>, it: Item, q: Query)
    ensures Tally(log + [it], q) == Tally(log, q) + (if Meets(it, q) then 1 else 0)
  {
    assert (log + [it])[..|log|] == log;
  }

  lemma {:induction false} TallyAppend(a: seq<Item>, b: seq<Item>, q: Query)
    ensures Tally(a + b, q) == Tally(a, q) + Tally(b, q)
    decreases |b|
  {
    hide Meets;
    if b == [] {
      assert a + b == a;
    } else {
      var init, it := b[..|b| - 1], b[|b| - 1];
      TallyAppend(a, init, q);
      TallySnoc(a + init, it, q);
      assert a + b == (a + init) + [it] && b == init + [it];
    }
  }

  function Shown(log: seq<Item>): seq<Item> {
    if log == [] then []
    else
      var it := log[|log| - 1];
      if it.action == Unchanged then Shown(log[..|log| - 1]) else Shown(log[..|log| - 1]) + [it]
  }

  lemma ShownSnoc(log: seq<Item>, it: Item)
    ensures Shown(log + [it]) == if it.action == Unchanged then Shown(log) else Shown(log) + [it]
  {
    assert (log + [it])[..|log|] == log;
  }

  function FirstOf(s: seq<Item>, n: nat): seq<Item> {
    if |s| <= n then s else s[..n]
  }

  lemma FirstOfSnoc(s: seq<Item>, it: Item, n: nat)
    ensures FirstOf(s + [it], n) == if |FirstOf(s, n)| < n then FirstOf(s, n) + [it] else FirstOf(s, n)
  {
  }

  function Cell(table: map<string, map<Action, nat>>, row: string, a: Action): nat {
    if row in table && a in table[row] then table[row][a] else 0
  }

  /** The table by type holds, for every type met, how often each action was taken. */
  ghost predicate IsTable(log: seq<Item>, table: map<string, map<Action, nat>>) {
    && (forall it :: it in log ==> RowOf(it) in table)
    && (forall row, a :: Cell(table, row, a) == Tally(log, TakenIn(row, a)))
  }

  function Bumped(table: map<string, map<Action, nat>>, row: string, a: Action): map<string, map<Action, nat>> {
    table[row := (if row in table then table[row] else map[])[a := Cell(table, row, a) + 1]]
  }

  lemma TableSnoc(log: seq<Item>, table: map<string, map<Action, nat>>, it: Item)
    requires IsTable(log, table)
    ensures IsTable(log + [it], Bumped(table, RowOf(it), it.action))
  {
    var table' := Bumped(table, RowOf(it), it.action);
    forall row, a ensures Cell(table', row, a) == Tally(log + [it], TakenIn(row, a)) {
      TallySnoc(log, it, TakenIn(row, a));
    }
  }

  /** The report of an import while it is being filled. */
  class ImportReport {
    const applied: bool
    const features: nat
    var updates: nat
    var creates: nat
    var unmoved: nat
    var errors: nat
    var proposed: nat
    var byType: map<string, map<Action, nat>>
    var items: seq<Item>
    var results: seq<int>
    ghost var log: seq<Item>

    /** Every figure of the report is a figure about the lines added so far. */
    ghost predicate Valid()
      reads this
    {
      && updates == Tally(log, Taken(Update)) && creates == Tally(log, Taken(Create))
      && unmoved == Tally(log, Taken(Unchanged)) && errors == Tally(log, Taken(Error))
      && IsTable(log, byType) && items == FirstOf(Shown(log), MAX_ITEMS)
    }

    constructor (applied: bool, features: nat)
      ensures Valid() && log == [] && proposed == 0 && results == []
      ensures this.applied == applied && this.features == features
    {
      this.applied, this.features := applied, features;
      updates, creates, unmoved, errors, proposed := 0, 0, 0, 0, 0;
      byType, items, results, log := map[], [], [], [];
    }

    method AddItem(it: Item)
      requires Valid()
      modifies this`updates, this`creates, this`unmoved, this`errors, this`byType, this`items, this`log
      ensures Valid() && log == old(log) + [it]
    {
      hide Tally, Shown, IsTable, RowOf, FirstOf, Bumped;
      TableSnoc(log, byType, it);
      ShownSnoc(log, it);
      FirstOfSnoc(Shown(log), it, MAX_ITEMS);
      TallySnoc(log, it, Taken(Update));
      TallySnoc(log, it, Taken(Create));
      TallySnoc(log, it, Taken(Unchanged));
      TallySnoc(log, it, Taken(Error));
      byType := Bumped(byType, RowOf(it), it.action);
      match it.action {
        case Update => updates := updates + 1;
        case Create => creates := creates + 1;
        case Unchanged => unmoved := unmoved + 1;
        case Error => errors := errors + 1;
      }
      if it.action != Unchanged && |items| < MAX_ITEMS {
        items := items + [it];
      }
      log := log + [it];
    }

    method NoteProposed()
      modifies this`proposed
      ensures proposed == old(proposed) + 1
    {
      proposed := proposed + 1;
    }

    method NoteResult(id: int)
      modifies this`results
      ensures results == old(results) + [id]
    {
      results := results + [id];
    }
  }

  // ------------------------------------------------------------------ the whole file

  function SeenBefore(steps: seq<Step>, i: nat): map<string, nat>
    requires i <= |steps|
  {
    if i == 0 then map[] else steps[i - 1].seen
  }

  /** What becomes of the first features of a file, in order. */
  ghost predicate AreSteps(w: Writer, world: World, features: seq<Feature>, steps: seq<Step>) {
    |steps| <= |features|
    && forall i :: 0 <= i < |steps| ==> IsStep(w, world, features[i], i + 1, SeenBefore(steps, i), steps[i])
  }

  /** Every decision tells what it asks for, or why it asks for nothing. */
  ghost predicate AllMean(w: Writer, world: World, features: seq<Feature>, steps: seq<Step>) {
    |steps| <= |features|
    && forall i :: 0 <= i < |steps| ==> Means(w, world, features[i], i + 1, SeenBefore(steps, i), steps[i])
  }

  lemma {:induction false} StepsMean(w: Writer, world: World, features: seq<Feature>, steps: seq<Step>)
    requires AreSteps(w, world, features, steps)
    ensures AllMean(w, world, features, steps)
  {
    hide IsStep, Means;
    forall i | 0 <= i < |steps| ensures Means(w, world, features[i], i + 1, SeenBefore(steps, i), steps[i]) {
      StepMeans(w, world, features[i], i + 1, SeenBefore(steps, i), steps[i]);
    }
  }

  /** The lines settled at once. */
  function Finals(steps: seq<Step>): seq<Item> {
    if steps == [] then []
    else
      var d := steps[|steps| - 1].decision;
      if d.Decided? then Finals(steps[..|steps| - 1]) + [d.item] else Finals(steps[..|steps| - 1])
  }

  /** The changes to be made. */
  function Candidates(steps: seq<Step>): seq<Change> {
    if steps == [] then []
    else
      var d := steps[|steps| - 1].decision;
      if d.Candidate? then Candidates(steps[..|steps| - 1]) + [d.change] else Candidates(steps[..|steps| - 1])
  }

  /** What an edit, or a proposal in its place, comes to. */
  datatype Reply = Done(id: int) | NotDone

  function Settled(it: Item, reply: Reply): Item {
    match reply
    case NotDone => it.(action := Error, problem := EditRefused)
    case Done(id) => if it.action == Create then it.(id := id) else it
  }

  /** The lines of the first `k` changes once they have been tried. */
  function Outcomes(changes: seq<Change>, replies: nat -> Reply, k: nat): seq<Item>
    requires k <= |changes|
  {
    if k == 0 then [] else Outcomes(changes, replies, k - 1) + [Settled(changes[k - 1].item, replies(k - 1))]
  }

  /** The lines of the first `k` changes as they are announced. */
  function Previews(changes: seq<Change>, k: nat): seq<Item>
    requires k <= |changes|
  {
    if k == 0 then [] else Previews(changes, k - 1) + [changes[k - 1].item]
  }

  function Refusals(replies: nat -> Reply, k: nat): nat {
    if k == 0 then 0 else Refusals(replies, k - 1) + (if replies(k - 1).NotDone? then 1 else 0)
  }

  /** The ids of the first `k` changes that were made. */
  function DoneIds(replies: nat -> Reply, k: nat): seq<int> {
    if k == 0 then []
    else if replies(k - 1).Done? then DoneIds(replies, k - 1) + [replies(k - 1).id] else DoneIds(replies, k - 1)
  }

  datatype File = TooLarge | NotGeoJson | Collection(features: seq<Feature>)

  datatype Failure = NoFailure | FileTooLarge | NotACollection | TooManyChanges(n: nat) | Cancelled

  /** The first of `n` moments at which `stop` says so, or `n`. */
  ghost predicate StopsAt(stop: nat -> bool, n: nat, k: nat) {
    k <= n && (forall j: nat :: j < k ==> !stop(j)) && (k < n ==> stop(k))
  }

  /** Makes the changes one by one, or proposes them, until the caller gives up; `asked` is what the editor, or the
      approval, was asked for. */
  method ApplyChanges(changes: seq<Change>, proposing: bool, replies: nat -> Reply, stop: nat -> bool,
                      rep: ImportReport)
    returns (k: nat, asked: seq<Change>)
    requires rep.Valid() && rep.proposed == 0 && rep.results == []
    modifies rep
    ensures StopsAt(stop, |changes|, k) && asked == changes[..k]
    ensures rep.Valid() && rep.log == old(rep.log) + Outcomes(changes, replies, k)
    ensures rep.proposed == (if proposing then k - Refusals(replies, k) else 0)
    ensures rep.results == if proposing then [] else DoneIds(replies, k)
  {
    hide Tally, Shown, IsTable, RowOf, FirstOf, Settled;
    k, asked := 0, [];
    while k < |changes|
      invariant k <= |changes| && rep.Valid() && rep.log == old(rep.log) + Outcomes(changes, replies, k)
      invariant asked == changes[..k] && forall j: nat :: j < k ==> !stop(j)
      invariant rep.proposed == (if proposing then k - Refusals(replies, k) else 0)
      invariant rep.results == if proposing then [] else DoneIds(replies, k)
    {
      if stop(k) { return; }
      asked := asked + [changes[k]];
      match replies(k) {
        case NotDone =>
        case Done(id) => if proposing { rep.NoteProposed(); } else { rep.NoteResult(id); }
      }
      rep.AddItem(Settled(changes[k].item, replies(k)));
      k := k + 1;
    }
  }

  /** Decides every feature; the lines settled at once go into the report. */
  method DecideAll(w: Writer, world: World, features: seq<Feature>, rep: ImportReport)
    returns (changes: seq<Change>, ghost steps: seq<Step>)
    requires rep.Valid() && rep.log == []
    modifies rep
    ensures AreSteps(w, world, features, steps) && |steps| == |features| && changes == Candidates(steps)
    ensures rep.Valid() && rep.log == Finals(steps)
    ensures rep.proposed == old(rep.proposed) && rep.results == old(rep.results)
  {
    hide IsStep, Tally, Shown, IsTable, RowOf, FirstOf;
    changes, steps := [], [];
    var seen: map<string, nat> := map[];
    var i := 0;
    while i < |features|
      invariant i <= |features| && |steps| == i && AreSteps(w, world, features, steps)
      invariant seen == SeenBefore(steps, i) && changes == Candidates(steps)
      invariant rep.Valid() && rep.log == Finals(steps)
      invariant rep.proposed == old(rep.proposed) && rep.results == old(rep.results)
    {
      var step := Decide(w, world, features[i], i + 1, seen);
      StepsSnoc(w, world, features, steps, step);
      steps := steps + [step];
      seen := step.seen;
      match step.decision {
        case Decided(item) => rep.AddItem(item);
        case Candidate(change) => changes := changes + [change];
      }
      i := i + 1;
    }
  }

  lemma StepsSnoc(w: Writer, world: World, features: seq<Feature>, steps: seq<Step>, step: Step)
    requires AreSteps(w, world, features, steps) && |steps| < |features|
    requires IsStep(w, world, features[|steps|], |steps| + 1, SeenBefore(steps, |steps|), step)
    ensures AreSteps(w, world, features, steps + [step])
    ensures (steps + [step])[..|steps|] == steps
  {
    hide IsStep;
    var longer := steps + [step];
    forall i | 0 <= i < |longer| ensures IsStep(w, world, features[i], i + 1, SeenBefore(longer, i), longer[i]) {
      assert i > 0 ==> longer[i - 1] == steps[i - 1];
    }
  }

  /** Compares a file with the data; with `apply`, makes the changes, or proposes them. */
  method ImportGeoJSON(w: Writer, world: World, file: File, apply: bool, proposing: bool, replies: nat -> Reply,
                       stop: nat -> bool)
    returns (rep: ImportReport?, failure: Failure, asked: seq<Change>, ghost steps: seq<Step>)
    ensures file.TooLarge? ==> rep == null && failure == FileTooLarge && asked == []
    ensures file.NotGeoJson? ==> rep == null && failure == NotACollection && asked == []
    ensures file.Collection? ==>
      && AreSteps(w, world, file.features, steps) && |steps| == |file.features|
      && AllMean(w, world, file.features, steps)
      && var changes := Candidates(steps);
         if |changes| > 5000 then rep == null && failure == TooManyChanges(|changes|) && asked == []
         else
           && rep != null && fresh(rep) && rep.Valid() && rep.applied == apply && rep.features == |file.features|
           && if apply then
                && StopsAt(stop, |changes|, |asked|) && asked == changes[..|asked|]
                && rep.log == Finals(steps) + Outcomes(changes, replies, |asked|)
                && failure == (if |asked| < |changes| then Cancelled else NoFailure)
                && rep.proposed == (if proposing then |asked| - Refusals(replies, |asked|) else 0)
                && rep.results == (if proposing then [] else DoneIds(replies, |asked|))
              else
                && asked == [] && rep.log == Finals(steps) + Previews(changes, |changes|) && failure == NoFailure
                && rep.proposed == 0 && rep.results == []
  {
    hide AreSteps, AllMean, Tally, Shown, IsTable, RowOf, FirstOf;
    asked, steps := [], [];
    match file {
      case TooLarge => return null, FileTooLarge, [], [];
      case NotGeoJson => return null, NotACollection, [], [];
      case Collection(features) =>
        var report := new ImportReport(apply, |features|);
        var changes;
        changes, steps := DecideAll(w, world, features, report);
        StepsMean(w, world, features, steps);
        if |changes| > MAX_CHANGES {
          return null, TooManyChanges(|changes|), [], steps;
        }
        failure := NoFailure;
        if apply {
          var k;
          k, asked := ApplyChanges(changes, proposing, replies, stop, report);
          if k < |changes| { failure := Cancelled; }
        } else {
          AnnounceAll(changes, report);
        }
        rep := report;
    }
  }

  method AnnounceAll(changes: seq<Change>, rep: ImportReport)
    requires rep.Valid()
    modifies rep
    ensures rep.Valid() && rep.log == old(rep.log) + Previews(changes, |changes|)
    ensures rep.proposed == old(rep.proposed) && rep.results == old(rep.results)
  {
    hide Tally, Shown, IsTable, RowOf, FirstOf;
    var k := 0;
    while k < |changes|
      invariant k <= |changes| && rep.Valid() && rep.log == old(rep.log) + Previews(changes, k)
      invariant rep.proposed == old(rep.proposed) && rep.results == old(rep.results)
    {
      rep.AddItem(changes[k].item);
      k := k + 1;
    }
  }
}
