/** The geometry of a line read back from an edited file: its ends stay where the network has them, and its inner
    points are compared within a tolerance. */
module LineEdits {
  import opened Listings

  /** A geometry: a line of at least two points, something else with its numbers in order, or unreadable. A point has
      any number of numbers, as in the file. */
  datatype Geometry = Line(points: seq<seq<real>>) | Shape(kind: string, numbers: seq<real>) | Broken

  /** 2e-7 degrees. */
  const TOLERANCE: real := 0.0000002

  predicate Near(a: real, b: real) {
    -TOLERANCE <= a - b <= TOLERANCE
  }

  function Kind(g: Geometry): string
    requires !g.Broken?
  {
    if g.Line? then "LineString" else g.kind
  }

  function Joined(points: seq<seq<real>>): seq<real> {
    if points == [] then [] else points[0] + Joined(points[1..])
  }

  function Numbers(g: Geometry): seq<real>
    requires !g.Broken?
  {
    if g.Line? then Joined(g.points) else g.numbers
  }

  /** As many numbers, none of them further than 2e-7 from its fellow. */
  ghost predicate Within(a: seq<real>, b: seq<real>) {
    |a| == |b| && forall i :: 0 <= i < |a| ==> -0.0000002 <= a[i] - b[i] <= 0.0000002
  }

  /** Lines with points of the same sizes are close if all their points are. */
  lemma {:induction false} LinesAreClose(a: seq<seq<real>>, b: seq<seq<real>>)
    requires |a| == |b| && forall i :: 0 <= i < |a| ==> |a[i]| == |b[i]|
    ensures Close(Line(a), Line(b)) <==> forall i :: 0 <= i < |a| ==> Within(a[i], b[i])
  {
    if a != [] {
      LinesAreClose(a[1..], b[1..]);
      WithinJoin(a[0], Joined(a[1..]), b[0], Joined(b[1..]));
      assert (forall i :: 0 <= i < |a| ==> Within(a[i], b[i])) <==>
        Within(a[0], b[0]) && forall i :: 0 <= i < |a[1..]| ==> Within(a[1..][i], b[1..][i]) by {
        forall i | 0 < i < |a| ensures a[i] == a[1..][i - 1] && b[i] == b[1..][i - 1] {}
      }
    }
  }

  lemma WithinJoin(a: seq<real>, b: seq<real>, c: seq<real>, d: seq<real>)
    requires |a| == |c|
    ensures Within(a + b, c + d) <==> Within(a, c) && Within(b, d)
  {
    if Within(a + b, c + d) {
      forall i | 0 <= i < |a| ensures -0.0000002 <= a[i] - c[i] <= 0.0000002 {
        assert (a + b)[i] == a[i] && (c + d)[i] == c[i];
      }
      forall i | 0 <= i < |b| ensures -0.0000002 <= b[i] - d[i] <= 0.0000002 {
        assert (a + b)[|a| + i] == b[i] && (c + d)[|c| + i] == d[i];
      }
    }
  }

  ghost predicate Close(a: Geometry, b: Geometry) {
    && !a.Broken? && !b.Broken? && Kind(a) == Kind(b) && |Numbers(a)| == |Numbers(b)|
    && forall i :: 0 <= i < |Numbers(a)| ==> Near(Numbers(a)[i], Numbers(b)[i])
  }

  /** Two shapes are taken for the same if each number of the one is within
      2e-7 of its fellow. */
  method CoordsClose(a: Geometry, b: Geometry) returns (close: bool)
    ensures close == Close(a, b)
    ensures a.Shape? && b.Shape? ==>
      (close <==> a.kind == b.kind && Within(a.numbers, b.numbers))
  {
    if a.Broken? || b.Broken? || Kind(a) != Kind(b) { return false; }
    var fa, fb := Numbers(a), Numbers(b);
    if |fa| != |fb| { return false; }
    for i := 0 to |fa|
      invariant forall j :: 0 <= j < i ==> Near(fa[j], fb[j])
    {
      if !Near(fa[i], fb[i]) { return false; }
    }
    return true;
  }

  predicate IsLine(g: Geometry) {
    g.Line? && |g.points| >= 2
  }

  predicate NearPoint(a: seq<real>, b: seq<real>) {
    |a| >= 2 && |b| >= 2 && Near(a[0], b[0]) && Near(a[1], b[1])
  }

  /** The two lines agree between their ends. */
  ghost predicate SameInside(c: seq<seq<real>>, n: seq<seq<real>>) {
    |c| == |n| && forall i :: 1 <= i < |c| - 1 ==> NearPoint(c[i], n[i])
  }

  /** The points of `n` between the ends of `c`. */
  function Rehung(c: seq<seq<real>>, n: seq<seq<real>>): (out: seq<seq<real>>)
    requires |c| >= 2 && |n| >= 2
    ensures |out| == |n| && out[0] == c[0] && out[|n| - 1] == c[|c| - 1]
    ensures forall i :: 1 <= i < |n| - 1 ==> out[i] == n[i]
  {
    [c[0]] + n[1..|n| - 1] + [c[|c| - 1]]
  }

  /** Lines with points of different numbers, or with an inner point that has moved or lacks a coordinate. */
  ghost predicate Differ(c: seq<seq<real>>, n: seq<seq<real>>) {
    |c| != |n| || exists i :: 1 <= i < |c| - 1 && (|c[i]| < 2 || |n[i]| < 2 || !Within(c[i][..2], n[i][..2]))
  }

  /** `out` has the ends of `c` and between them the points of `n`. */
  ghost predicate Keeps(c: seq<seq<real>>, n: seq<seq<real>>, out: seq<seq<real>>)
    requires |c| >= 2 && |n| >= 2
  {
    && |out| == |n| && out[0] == c[0] && out[|out| - 1] == c[|c| - 1]
    && forall i :: 0 < i < |n| - 1 ==> out[i] == n[i]
  }

  lemma {:induction false} DifferIs(c: seq<seq<real>>, n: seq<seq<real>>)
    ensures Differ(c, n) <==> !SameInside(c, n)
  {
    hide NearPoint;
    if |c| == |n| {
      forall i | 1 <= i < |c| - 1
        ensures NearPoint(c[i], n[i]) <==> |c[i]| >= 2 && |n[i]| >= 2 && Within(c[i][..2], n[i][..2])
      {
        NearPointIs(c[i], n[i]);
      }
    }
  }

  lemma NearPointIs(a: seq<real>, b: seq<real>)
    ensures NearPoint(a, b) <==> |a| >= 2 && |b| >= 2 && Within(a[..2], b[..2])
  {
    if |a| >= 2 && |b| >= 2 {
      assert a[..2][0] == a[0] && a[..2][1] == a[1] && b[..2][0] == b[0] && b[..2][1] == b[1];
    }
  }

  /** Decides whether a file moves an edge, and to where. */
  method EdgeGeometryUpdate(cur: Geometry, next: Geometry) returns (update: Option<Geometry>, changed: bool)
    ensures IsLine(cur) && IsLine(next) ==>
      && changed == !SameInside(cur.points, next.points)
      && update == (if changed then Some(Line(Rehung(cur.points, next.points))) else None)
    ensures !(IsLine(cur) && IsLine(next)) ==> changed == !Close(cur, next) && update == Some(next)
    ensures cur.Line? && next.Line? && |cur.points| >= 2 && |next.points| >= 2 ==>
      && (changed <==> Differ(cur.points, next.points))
      && (changed ==> update.Some? && update.value.Line? && Keeps(cur.points, next.points, update.value.points))
  {
    if !IsLine(cur) || !IsLine(next) {
      var close := CoordsClose(cur, next);
      return Some(next), !close;
    }
    var c, n := cur.points, next.points;
    DifferIs(c, n);
    hide Differ;
    if |c| == |n| {
      var same, i := true, 1;
      while i < |c| - 1 && same
        invariant 1 <= i <= |c| - 1
        invariant same ==> forall j :: 1 <= j < i ==> NearPoint(c[j], n[j])
        invariant !same ==> exists j :: 1 <= j < |c| - 1 && !NearPoint(c[j], n[j])
      {
        if !NearPoint(c[i], n[i]) { same := false; }
        i := i + 1;
      }
      if same { return None, false; }
    }
    var out := n;
    out := out[0 := c[0]][|out| - 1 := c[|c| - 1]];
    assert out == Rehung(c, n);
    return Some(Line(out)), true;
  }

  /** Every point between the ends has its two coordinates. */
  ghost predicate WellFormed(n: seq<seq<real>>) {
    forall i :: 1 <= i < |n| - 1 ==> |n[i]| >= 2
  }

  /** `stored` is `g` up to the tolerance, as a database that rounds to seven decimals gives it back. */
  ghost predicate Rounded(stored: seq<seq<real>>, g: seq<seq<real>>) {
    |stored| == |g| && forall i :: 0 <= i < |g| ==>
      |stored[i]| == |g[i]| && forall k :: 0 <= k < |g[i]| ==> Near(stored[i][k], g[i][k])
  }

  /** Lines that differ in their ends only are the same to the file. */
  lemma EndsDoNotMatter(c: seq<seq<real>>, n: seq<seq<real>>)
    requires |c| == |n| >= 2 && WellFormed(n) && forall i :: 1 <= i < |c| - 1 ==> c[i] == n[i]
    ensures SameInside(c, n)
  {
  }

  /** Once applied, even with the rounding of the database, the same file moves the edge again exactly when it has an
      inner point without two coordinates. */
  lemma {:induction false} SettlesIffWellFormed(c: seq<seq<real>>, n: seq<seq<real>>, stored: seq<seq<real>>)
    requires |c| >= 2 && |n| >= 2 && Rounded(stored, Rehung(c, n))
    ensures SameInside(stored, n) <==> WellFormed(n)
  {
    var out := Rehung(c, n);
    forall i | 1 <= i < |n| - 1 ensures NearPoint(stored[i], n[i]) <==> |n[i]| >= 2 {
      assert out[i] == n[i] && |stored[i]| == |n[i]|;
    }
    if SameInside(stored, n) {
      forall i | 1 <= i < |n| - 1 ensures |n[i]| >= 2 {
        assert NearPoint(stored[i], n[i]);
      }
    }
  }

  /** Moving the ends, as the application does when a node moves, does not change what a file does to the inside. */
  lemma {:induction false} MovedEndsKeepVerdict(c: seq<seq<real>>, moved: seq<seq<real>>, n: seq<seq<real>>)
    requires |c| == |moved| >= 2 && |n| >= 2 && forall i :: 1 <= i < |c| - 1 ==> c[i] == moved[i]
    ensures SameInside(c, n) <==> SameInside(moved, n)
    ensures forall i :: 1 <= i < |n| - 1 ==> Rehung(c, n)[i] == Rehung(moved, n)[i]
  {
    if |c| == |n| {
      forall i | 1 <= i < |c| - 1 ensures NearPoint(c[i], n[i]) <==> NearPoint(moved[i], n[i]) {
        assert c[i] == moved[i];
      }
    }
  }
}
