/** Lexicographic order, and the uniqueness of a sorted listing. */
module Orders {
  import opened Listings

  predicate LexLess(a: seq<int>, b: seq<int>) {
    if a == [] || b == [] then |a| < |b|
    else a[0] < b[0] || (a[0] == b[0] && LexLess(a[1..], b[1..]))
  }

  lemma {:induction false} LexTrichotomy(a: seq<int>, b: seq<int>)
    ensures !(LexLess(a, b) && LexLess(b, a))
    ensures !LexLess(a, b) && !LexLess(b, a) <==> a == b
  {
    if a != [] && b != [] {
      LexTrichotomy(a[1..], b[1..]);
      assert a == [a[0]] + a[1..] && b == [b[0]] + b[1..];
    }
  }

  lemma {:induction false} LexTransitive(a: seq<int>, b: seq<int>, c: seq<int>)
    requires LexLess(a, b) && LexLess(b, c)
    ensures LexLess(a, c)
  {
    if a != [] && a[0] == b[0] == c[0] {
      LexTransitive(a[1..], b[1..], c[1..]);
    }
  }

  ghost predicate Sorted<T(!new)>(less: (T, T) -> bool, s: seq<T>) {
    forall i, j :: 0 <= i < j < |s| ==> less(s[i], s[j])
  }

  /** There is only one way to list the same elements in strictly ascending order. */
  lemma {:induction false} SortedUnique<T(!new)>(less: (T, T) -> bool, s: seq<T>, t: seq<T>)
    requires forall a, b :: less(a, b) ==> !less(b, a)
    requires Sorted(less, s) && Sorted(less, t) && forall x :: x in s <==> x in t
    ensures s == t
    decreases |s|
  {
    if s == [] {
      if |t| > 0 {
        var x := SomeMember(t);
        assert false;
      }
    } else {
      assert s[0] in s && s[0] in t;
      assert t[0] in t && t[0] in s;
      var i :| 0 <= i < |t| && t[i] == s[0];
      var j :| 0 <= j < |s| && s[j] == t[0];
      forall x ensures x in s[1..] <==> x in t[1..] {
        TailMembers(less, s, x);
        TailMembers(less, t, x);
      }
      SortedUnique(less, s[1..], t[1..]);
      assert s == [s[0]] + s[1..] && t == [t[0]] + t[1..];
    }
  }

  lemma TailMembers<T(!new)>(less: (T, T) -> bool, s: seq<T>, x: T)
    requires forall a, b :: less(a, b) ==> !less(b, a)
    requires s != [] && Sorted(less, s)
    ensures x in s[1..] <==> x in s && x != s[0]
  {
    if x in s[1..] {
      var k :| 0 <= k < |s[1..]| && s[1..][k] == x;
      assert s[k + 1] == x && less(s[0], s[k + 1]);
    }
  }

  // ------------------------------------------------------------------ ids

  predicate Less(a: int, b: int) {
    a < b
  }

  ghost predicate Ascending(s: seq<int>) {
    forall i, j :: 0 <= i < j < |s| ==> s[i] < s[j]
  }

  method InsertId(s: seq<int>, v: int) returns (t: seq<int>)
    requires Ascending(s) && v !in s
    ensures Ascending(t) && forall u :: u in t <==> u in s || u == v
  {
    var i := |s|;
    while i > 0 && v < s[i - 1]
      invariant 0 <= i <= |s| && forall j :: i <= j < |s| ==> v < s[j]
    {
      i := i - 1;
    }
    assert i > 0 ==> s[i - 1] in s;
    t := s[..i] + [v] + s[i..];
    Inserted(s, v, i);
  }

  lemma Inserted(s: seq<int>, v: int, i: nat)
    requires Ascending(s) && i <= |s| && (forall j :: i <= j < |s| ==> v < s[j]) && (i > 0 ==> s[i - 1] < v)
    ensures var t := s[..i] + [v] + s[i..]; Ascending(t) && forall u :: u in t <==> u in s || u == v
  {
    var t := s[..i] + [v] + s[i..];
    forall a, b | 0 <= a < b < |t| ensures t[a] < t[b] {
      assert a < i ==> t[a] == s[a];
      assert a > i ==> t[a] == s[a - 1];
      assert b < i ==> t[b] == s[b];
      assert b > i ==> t[b] == s[b - 1];
    }
    InsertedMembers(s, v, i);
  }

  lemma InsertedMembers(s: seq<int>, v: int, i: nat)
    requires i <= |s|
    ensures forall u :: u in s[..i] + [v] + s[i..] <==> u in s || u == v
  {
    assert s == s[..i] + s[i..];
  }

  method SortIds(s: seq<int>) returns (t: seq<int>)
    requires Distinct(s)
    ensures Ascending(t) && forall v :: v in t <==> v in s
  {
    t := [];
    for i := 0 to |s|
      invariant Ascending(t) && forall v :: v in t <==> v in s[..i]
    {
      assert s[i] !in s[..i];
      assert s[..i + 1] == s[..i] + [s[i]];
      t := InsertId(t, s[i]);
    }
    assert s[..|s|] == s;
  }

  lemma AscendingIsSorted(s: seq<int>)
    requires Ascending(s)
    ensures Sorted(Less, s)
  {
  }
}
