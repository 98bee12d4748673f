/** What leaves the system as flat columns of a GeoJSON file and comes back from it after an edit: attributes are
    renamed where they collide with built-in columns, nested values become text, empty columns are ignored; line ends
    belong to the network, not to the file. */
module Exchange {
  import opened Listings

  type Text = s: string | s != "" witness "{}"

  /** A decoded JSON value. */
  datatype Json =
    | Null
    | Bool(b: bool)
    | Num(n: real)
    | Str(s: string)
    | Arr(items: seq<Json>)
    | Obj(fields: map<string, Json>)

  /** How numbers and nested values are written, and how a text is read as a whole number. */
  datatype Writer = Writer(number: real -> Text, nested: Json -> Text, integer: string -> Option<int>)

  const RESERVED: set<string> := {
    "qgis_kind", "qgis_id", "type_code", "code", "name", "status",
    "energized", "from_node_id", "to_node_id", "length_m", "fid", "geom_part"
  }

  predicate Reserved(k: string) {
    k in RESERVED
  }

  /** A key that an attribute of its own and a renamed attribute would both have as column. */
  predicate Shadow(k: string) {
    |k| >= 2 && k[..2] == "p_" && Reserved(k[2..])
  }

  function Column(k: string): string {
    if Reserved(k) then "p_" + k else k
  }

  function Original(f: string): string {
    if Shadow(f) then f[2..] else f
  }

  lemma ReservedAreUnprefixed(k: string)
    requires Reserved(k)
    ensures |k| >= 2 && k[..2] != "p_"
  {
    assert k[0] != 'p';
  }

  lemma PrefixIsCut(k: string)
    ensures |"p_" + k| >= 2 && ("p_" + k)[..2] == "p_" && ("p_" + k)[2..] == k
  {
  }

  /** No column of an attribute is a built-in one, and for a key that is no shadow the column tells the key. */
  lemma ColumnTellsKey(k: string)
    ensures !Reserved(Column(k))
    ensures !Shadow(k) ==> Original(Column(k)) == k
  {
    hide Reserved;
    PrefixIsCut(k);
    if Reserved(k) {
      if Reserved("p_" + k) { ReservedAreUnprefixed("p_" + k); }
    }
  }

  /** Every column that is not built in belongs to one key, which is no shadow. */
  lemma KeyTellsColumn(f: string)
    requires !Reserved(f)
    ensures Column(Original(f)) == f && !Shadow(Original(f))
  {
    hide Reserved;
    if Shadow(f) {
      ReservedAreUnprefixed(f[2..]);
      assert "p_" + f[2..] == f;
    }
  }

  /** The columns a file has of its own. */
  predicate BuiltIn(k: string) {
    k == "qgis_kind" || k == "qgis_id" || k == "type_code" || k == "code" || k == "name" || k == "status"
    || k == "energized" || k == "from_node_id" || k == "to_node_id" || k == "length_m" || k == "fid" || k == "geom_part"
  }

  /** An attribute that would overwrite a column of the file's own is written under another name and comes back under
      its own; every other attribute keeps its name, but one that looks renamed does not come back under it. */
  lemma ColumnsAre(k: string)
    ensures Column(k) == if BuiltIn(k) then "p_" + k else k
    ensures Original(Column(k)) == k <==> !(exists f :: BuiltIn(f) && k == "p_" + f)
    ensures Filled(Null) == Filled(Str("")) == false
  {
    hide BuiltIn;
    BuiltInIsReserved(k);
    if |k| >= 2 { BuiltInIsReserved(k[2..]); }
    forall f | k == "p_" + f ensures BuiltIn(f) <==> Shadow(k) {
      PrefixIsCut(f);
      BuiltInIsReserved(f);
    }
    if Shadow(k) {
      assert k == "p_" + k[2..];
      ReservedAreUnprefixed(k[2..]);
      if Reserved(k) { ReservedAreUnprefixed(k); }
    } else {
      ColumnTellsKey(k);
    }
  }

  lemma BuiltInIsReserved(k: string)
    ensures BuiltIn(k) <==> Reserved(k)
  {
  }

  lemma SameColumn(k: string, k': string)
    requires Column(k) == Column(k') && !Shadow(k) && !Shadow(k')
    ensures k == k'
  {
    hide Reserved, Shadow, Column, Original;
    ColumnTellsKey(k);
    ColumnTellsKey(k');
  }

  function Flat(w: Writer, v: Json): Json {
    if v.Arr? || v.Obj? then Str(w.nested(v)) else v
  }

  predicate Filled(v: Json) {
    v != Null && v != Str("")
  }

  /** A nested value is written as text, any other as it is; only null and the empty text are left out when read. */
  lemma ValuesAre(w: Writer, v: Json)
    ensures Flat(w, v) == match v
                          case Arr(_) => Str(w.nested(v))
                          case Obj(_) => Str(w.nested(v))
                          case _ => v
    ensures Filled(v) <==> v.Bool? || v.Num? || v.Arr? || v.Obj? || (v.Str? && |v.s| > 0)
  {
  }

  /** The columns of an object's attributes; two attributes with one column leave one of their values in it. */
  ghost predicate IsFlattened(w: Writer, props: map<string, Json>, columns: map<string, Json>) {
    && (forall k :: k in props ==> Column(k) in columns)
    && (forall f :: f in columns ==> exists k :: k in props && Column(k) == f && columns[f] == Flat(w, props[k]))
  }

  method FlattenProps(w: Writer, props: map<string, Json>) returns (columns: map<string, Json>)
    ensures IsFlattened(w, props, columns)
  {
    hide Column, Flat;
    columns := map[];
    var left := props.Keys;
    while left != {}
      invariant left <= props.Keys
      invariant forall k :: k in props && k !in left ==> Column(k) in columns
      invariant forall f :: f in columns ==> exists k :: k in props && Column(k) == f && columns[f] == Flat(w, props[k])
      decreases left
    {
      var k := Pick(left);
      columns := columns[Column(k) := Flat(w, props[k])];
      left := left - {k};
    }
  }

  /** The attributes read back: each key from its column, unless that is missing or empty. */
  ghost predicate IsReadBack(fields: map<string, Json>, props: map<string, Json>) {
    && (forall k :: k in props <==> !Shadow(k) && Column(k) in fields && Filled(fields[Column(k)]))
    && (forall k :: k in props ==> props[k] == fields[Column(k)])
  }

  /** A file says one thing about an object's attributes, whatever the order in which its columns are visited. */
  lemma ReadBackIsUnique(fields: map<string, Json>, a: map<string, Json>, b: map<string, Json>)
    requires IsReadBack(fields, a) && IsReadBack(fields, b)
    ensures a == b
  {
    hide Shadow, Column, Filled;
  }

  method PropsFromFields(fields: map<string, Json>) returns (props: map<string, Json>)
    ensures IsReadBack(fields, props)
  {
    hide Reserved, Shadow, Column, Original, Filled;
    props := map[];
    var left := fields.Keys;
    while left != {}
      invariant left <= fields.Keys
      invariant forall k :: k in props <==>
        !Shadow(k) && Column(k) in fields && Column(k) !in left && Filled(fields[Column(k)])
      invariant forall k :: k in props ==> props[k] == fields[Column(k)]
      decreases left
    {
      var f := Pick(left);
      if !Reserved(f) {
        KeyTellsColumn(f);
        if Filled(fields[f]) {
          props := props[Original(f) := fields[f]];
        }
      }
      forall k | !Shadow(k) && Column(k) == f ensures !Reserved(f) && Original(f) == k {
        ColumnTellsKey(k);
      }
      left := left - {f};
    }
  }

  function AsString(w: Writer, v: Json): string {
    match v
    case Null => ""
    case Str(s) => s
    case Num(n) => w.number(n)
    case Bool(b) => if b then "true" else "false"
    case _ => w.nested(v)
  }

  /** Numbers within 1e-9, anything else by its text. */
  predicate SameValue(w: Writer, a: Json, b: Json) {
    if a.Num? && b.Num? then -0.000000001 < a.n - b.n < 0.000000001 else AsString(w, a) == AsString(w, b)
  }

  /** Two values are the same to the file: numbers closer than 1e-9, and a number or truth value and its text. */
  lemma SameValueIs(w: Writer, a: Json, b: Json)
    ensures a.Num? && b.Num? ==> (SameValue(w, a, b) <==> a.n - b.n < 0.000000001 && b.n - a.n < 0.000000001)
    ensures b.Str? ==> SameValue(w, a, b) == SameValue(w, b, a)
    ensures a.Str? && b.Str? ==> SameValue(w, a, b) == (a.s == b.s)
    ensures a.Num? && b.Str? ==> SameValue(w, a, b) == (b.s == w.number(a.n))
    ensures a.Bool? && b.Str? ==> SameValue(w, a, b) == (b.s == if a.b then "true" else "false")
    ensures (a.Arr? || a.Obj?) && b.Str? ==> SameValue(w, a, b) == (b.s == w.nested(a))
    ensures a.Null? && b.Str? ==> SameValue(w, a, b) == (b.s == "")
  {
  }

  ghost predicate SameProps(w: Writer, cur: map<string, Json>, next: map<string, Json>) {
    && cur.Keys == next.Keys
    && (forall k :: k in cur ==> SameValue(w, cur[k], next[k]))
  }

  /** Comparing the sizes and then only the keys of one side is enough. */
  method PropsChanged(w: Writer, cur: map<string, Json>, next: map<string, Json>) returns (changed: bool)
    ensures changed == !SameProps(w, cur, next)
  {
    hide SameValue;
    if |cur.Keys| != |next.Keys| { return true; }
    var left := cur.Keys;
    while left != {}
      invariant left <= cur.Keys
      invariant forall k :: k in cur && k !in left ==> k in next && SameValue(w, cur[k], next[k])
      decreases left
    {
      var k := Pick(left);
      if k !in next || !SameValue(w, cur[k], next[k]) { return true; }
      left := left - {k};
    }
    SubsetOfSameSize(cur.Keys, next.Keys);
    return false;
  }

  lemma SubsetOfSameSize<T>(a: set<T>, b: set<T>)
    requires a <= b && |a| == |b|
    ensures a == b
  {
    assert b == a + (b - a);
  }

  // ------------------------------------------------------------------ out and back

  /** A row of the file: the attributes' columns, with any built-in columns beside them. */
  ghost predicate IsRow(columns: map<string, Json>, row: map<string, Json>) {
    forall f :: !Reserved(f) ==> (f in row <==> f in columns) && (f in row ==> row[f] == columns[f])
  }

  /** Attributes that survive the file: no value is null or an empty text, no key shadows a renamed one. */
  ghost predicate Clean(props: map<string, Json>) {
    forall k :: k in props ==> Filled(props[k]) && !Shadow(k)
  }

  lemma FlatKeepsValue(w: Writer, v: Json)
    ensures SameValue(w, v, Flat(w, v)) && (Filled(Flat(w, v)) <==> Filled(v))
  {
  }

  /** The column of a key that is no shadow holds that key's value, if no attribute shadows it. */
  lemma ColumnHolds(w: Writer, props: map<string, Json>, columns: map<string, Json>, k: string)
    requires IsFlattened(w, props, columns) && Column(k) in columns && !Shadow(k)
    requires forall k :: k in props ==> !Shadow(k)
    ensures k in props && columns[Column(k)] == Flat(w, props[k])
  {
    hide Reserved, Shadow, Column, Flat;
    var k' :| k' in props && Column(k') == Column(k) && columns[Column(k)] == Flat(w, props[k']);
    SameColumn(k, k');
  }

  /** Exporting an object's attributes and reading the unedited file back is judged "not changed" exactly when the
      attributes are clean. */
  lemma {:induction false} UnchangedIffClean(w: Writer, props: map<string, Json>, columns: map<string, Json>,
                                             row: map<string, Json>,
                                              back: map<string, Json>)
    requires IsFlattened(w, props, columns) && IsRow(columns, row) && IsReadBack(row, back)
    ensures SameProps(w, props, back) <==> Clean(props)
    ensures Clean(props) ==> forall k :: k in props ==> back[k] == Flat(w, props[k])
  {
    hide Reserved, Shadow, Column, Flat, Filled, SameValue;
    forall k ensures !Reserved(Column(k)) { ColumnTellsKey(k); }
    if forall k :: k in props ==> !Shadow(k) {
      forall k | Column(k) in columns && !Shadow(k) ensures k in props && columns[Column(k)] == Flat(w, props[k]) {
        ColumnHolds(w, props, columns, k);
      }
      forall k | k in props ensures SameValue(w, props[k], Flat(w, props[k]))
        && (Filled(Flat(w, props[k])) <==> Filled(props[k])) {
        FlatKeepsValue(w, props[k]);
      }
    }
  }

  /** Whatever an object's attributes were, once the file has been applied the next round trip changes nothing. */
  lemma {:induction false} SecondTripIsStable(w: Writer, fields: map<string, Json>, props: map<string, Json>,
                                              columns: map<string, Json>, row: map<string, Json>,
                                              back: map<string, Json>)
    requires IsReadBack(fields, props)
    requires IsFlattened(w, props, columns) && IsRow(columns, row) && IsReadBack(row, back)
    ensures SameProps(w, props, back)
  {
    UnchangedIffClean(w, props, columns, row, back);
  }
}
