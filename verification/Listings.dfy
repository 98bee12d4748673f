/** Sequences without repetition, and the sets they list. Shared by every module that stores lists of ids. */
module Listings {

  datatype Option<+T> = None | Some(value: T) {
    function GetOr(default: T): T {
      if Some? then value else default
    }
  }

  ghost predicate Distinct<T(!new)>(s: seq<T>) {
    forall i, j :: 0 <= i < j < |s| ==> s[i] != s[j]
  }

  /** `s` lists exactly the members of `members`, each once. */
  ghost predicate Lists<T(!new)>(s: seq<T>, members: set<T>) {
    Distinct(s) && forall x :: x in s <==> x in members
  }

  function Members(s: seq<int>): (members: set<int>)
    ensures forall x :: x in members <==> x in s
  {
    set x | x in s
  }

  lemma ListsAppend<T(!new)>(s: seq<T>, members: set<T>, x: T)
    requires Lists(s, members) && x !in members
    ensures Lists(s + [x], members + {x})
  {
    forall y ensures y in s + [x] <==> y in members + {x} {
    }
  }

  lemma SomeMember<T>(s: seq<T>) returns (x: T)
    requires |s| > 0
    ensures x in s
  {
    x := s[0];
  }

  lemma DistinctConcat(a: seq<int>, b: seq<int>)
    requires Distinct(a) && Distinct(b) && forall n :: n in a ==> n !in b
    ensures Distinct(a + b)
  {
    forall i, j | 0 <= i < j < |a + b| ensures (a + b)[i] != (a + b)[j] {
      assert i < |a| ==> a[i] in a;
      assert j >= |a| ==> b[j - |a|] in b;
    }
  }

  /** A list without one of its places. */
  lemma RestOf(s: seq<int>, k: nat)
    requires Distinct(s) && k < |s|
    ensures var rest := s[..k] + s[k + 1..]; Distinct(rest) && forall v :: v in rest <==> v in s && v != s[k]
  {
    assert s == s[..k] + [s[k]] + s[k + 1..];
    assert s[k] !in s[..k] && s[k] !in s[k + 1..];
  }

  /** Some member of a set: which one is not specified. */
  method Pick<T>(s: set<T>) returns (x: T)
    requires s != {}
    ensures x in s
  {
    x :| x in s;
  }

  /** Any listing of a set, in an order that is not specified: the order in which a Go map is ranged over. */
  method ListSet(members: set<int>) returns (s: seq<int>)
    ensures Lists(s, members)
  {
    s := [];
    var todo := members;
    while todo != {}
      invariant todo <= members
      invariant Lists(s, members - todo)
      decreases todo
    {
      var x := Pick(todo);
      ListsAppend(s, members - todo, x);
      assert members - todo + {x} == members - (todo - {x});
      s := s + [x];
      todo := todo - {x};
    }
    assert members - todo == members;
  }

  /** Sum of a weight over a list. */
  function Sum<T>(w: T -> nat, s: seq<T>): nat {
    if s == [] then 0 else w(s[0]) + Sum(w, s[1..])
  }

  lemma {:induction false} SumAppend<T>(w: T -> nat, a: seq<T>, b: seq<T>)
    ensures Sum(w, a + b) == Sum(w, a) + Sum(w, b)
  {
    if a == [] {
      assert a + b == b;
    } else {
      SumAppend(w, a[1..], b);
      assert (a + b)[1..] == a[1..] + b;
    }
  }

  lemma SumSnoc<T>(w: T -> nat, a: seq<T>, x: T)
    ensures Sum(w, a + [x]) == Sum(w, a) + w(x)
  {
    SumAppend(w, a, [x]);
  }

  /** A list without repetition drawn from another list weighs no more than it. */
  lemma {:induction false} SumOfPart<T(!new)>(w: T -> nat, part: seq<T>, whole: seq<T>)
    requires Distinct(part) && forall x :: x in part ==> x in whole
    ensures Sum(w, part) <= Sum(w, whole)
    decreases |part|
  {
    if part != [] {
      assert part[0] in whole;
      var k :| 0 <= k < |whole| && whole[k] == part[0];
      var rest := whole[..k] + whole[k + 1..];
      forall x | x in part[1..] ensures x in rest {
        assert x in part && x in whole;
        var j :| 0 <= j < |whole| && whole[j] == x;
        assert x != part[0];
        if j < k { assert rest[j] == x; } else { assert rest[j - 1] == x; }
      }
      SumOfPart(w, part[1..], rest);
      assert whole == whole[..k] + ([whole[k]] + whole[k + 1..]);
      SumAppend(w, whole[..k], [whole[k]] + whole[k + 1..]);
      SumAppend(w, whole[..k], whole[k + 1..]);
    }
  }

  /** How many of the first `n` numbers `pick` picks something for. */
  ghost function HowMany<U>(n: nat, pick: nat -> Option<U>): nat {
    |set i: nat | i < n && pick(i).Some?|
  }

  /** `out` lists what `pick` picks for the first `n` numbers, in their order. */
  ghost predicate Picks<U(!new)>(n: nat, pick: nat -> Option<U>, out: seq<U>) {
    && |out| == HowMany(n, pick)
    && forall i: nat :: i < n && pick(i).Some? ==> HowMany(i, pick) < |out| && out[HowMany(i, pick)] == pick(i).value
  }

  lemma HowManyNext<U>(n: nat, pick: nat -> Option<U>)
    ensures HowMany(n + 1, pick) == HowMany(n, pick) + (if pick(n).Some? then 1 else 0)
  {
    var before, after := set i: nat | i < n && pick(i).Some?, set i: nat | i < n + 1 && pick(i).Some?;
    assert after == if pick(n).Some? then before + {n} else before;
  }

  lemma HowManyOfNone<U>(pick: nat -> Option<U>)
    ensures HowMany(0, pick) == 0
  {
    assert (set i: nat | i < 0 && pick(i).Some?) == {};
  }

  lemma PicksNothing<U(!new)>(pick: nat -> Option<U>)
    ensures Picks(0, pick, [])
  {
    assert (set i: nat | i < 0 && pick(i).Some?) == {};
  }

  lemma PicksNext<U(!new)>(n: nat, pick: nat -> Option<U>, out: seq<U>)
    requires Picks(n, pick, out)
    ensures Picks(n + 1, pick, if pick(n).Some? then out + [pick(n).value] else out)
  {
    hide HowMany;
    HowManyNext(n, pick);
  }
}
