/** What each kind of position does to the energised nodes, told without the rule by which power is passed on. */
module Switching {
  import opened Listings
  import opened Network

  ghost predicate SameFeeding(a: Network, p: Position, b: Network, q: Position) {
    && a.nodes.Keys == b.nodes.Keys && (forall n :: Seed(a, p, n) <==> Seed(b, q, n))
    && (forall x, y :: Feeds(a, p, x, y) <==> Feeds(b, q, x, y))
  }

  lemma {:induction false} SameLive(a: Network, p: Position, b: Network, q: Position)
    requires SameFeeding(a, p, b, q)
    ensures Live(a, p) == Live(b, q)
  {
    hide Seed, Feeds;
    forall n, path ensures IsPath(a, p, path, n) <==> IsPath(b, q, path, n) {
    }
    forall n ensures Fed(a, p, n) <==> Fed(b, q, n) {
    }
  }

  lemma {:induction false} LiveIsClosed(net: Network, pos: Position, a: int, b: int)
    requires a in Live(net, pos) && Feeds(net, pos, a, b) && b in net.nodes
    ensures b in Live(net, pos)
  {
    hide Feeds;
    var path :| IsPath(net, pos, path, a);
    assert IsPath(net, pos, path + [b], b);
  }

  lemma SeedIsLive(net: Network, pos: Position, n: int)
    requires Seed(net, pos, n)
    ensures n in Live(net, pos)
  {
    assert IsPath(net, pos, [n], n);
  }

  /** A source in service is energised, and an energised node that is not open energises its neighbour along a whole
      line whose two ways are closed, unless the neighbour is a disconnected object. */
  lemma {:induction false} PowerPasses(net: Network, pos: Position, e: int, a: int, b: int)
    requires net.Valid()
    ensures a in net.nodes && net.nodes[a].source && a !in pos.open ==> a in Live(net, pos)
    ensures && a in Live(net, pos) && a !in pos.open && e in net.lines && net.lines[e] in {Line(a, b), Line(b, a)}
            && e !in pos.cut && (a, e) !in pos.ways && (b, e) !in pos.ways && (b in pos.open ==> net.nodes[b].switch)
            ==> b in Live(net, pos)
  {
    hide Live;
    if a in net.nodes && net.nodes[a].source && a !in pos.open { SeedIsLive(net, pos, a); }
    if Conducts(net, pos, e, a, b) && a !in pos.open && a in Live(net, pos) {
      assert Feeds(net, pos, a, b);
      LiveIsClosed(net, pos, a, b);
    }
  }

  /** A cut line is a line that is not there. */
  lemma {:induction false} CutIsGone(net: Network, pos: Position, e: int)
    ensures Live(net, Place(pos, Cut(e), true)) == Live(net.(lines := net.lines - {e}), pos)
  {
    hide Live;
    var q, less := Place(pos, Cut(e), true), net.(lines := net.lines - {e});
    forall x, y ensures Feeds(net, q, x, y) <==> Feeds(less, pos, x, y) {
      if Feeds(net, q, x, y) {
        var f :| Conducts(net, q, f, x, y);
        assert Conducts(less, pos, f, x, y);
      }
      if Feeds(less, pos, x, y) {
        var f :| Conducts(less, pos, f, x, y);
        assert Conducts(net, q, f, x, y);
      }
    }
    SameLive(net, q, less, pos);
  }

  /** An open way of a node, whichever of the two ends it is, stops power as cutting that line does. */
  lemma {:induction false} OpenWayIsCut(net: Network, pos: Position, n: int, e: int)
    requires e in net.lines && net.lines[e].Touches(n)
    ensures Live(net, Place(pos, Way(n, e), true)) == Live(net, Place(pos, Cut(e), true))
  {
    hide Live;
    var p, q := Place(pos, Way(n, e), true), Place(pos, Cut(e), true);
    forall x, y ensures Feeds(net, p, x, y) <==> Feeds(net, q, x, y) {
      if Feeds(net, p, x, y) {
        var f :| Conducts(net, p, f, x, y);
        assert Conducts(net, q, f, x, y);
      }
      if Feeds(net, q, x, y) {
        var f :| Conducts(net, q, f, x, y);
        assert Conducts(net, p, f, x, y);
      }
    }
    SameLive(net, p, net, q);
  }

  function LinesOf(net: Network, n: int): set<int> {
    set e | e in net.lines && (net.lines[e].from == n || net.lines[e].to == n)
  }

  lemma SameElsewhere(net: Network, pos: Position, n: int, x: int, y: int)
    requires x != n && y != n
    ensures Feeds(net, Place(pos, Device(n), true), x, y) <==> Feeds(net, pos.(cut := pos.cut + LinesOf(net, n)), x, y)
  {
    var p, q := Place(pos, Device(n), true), pos.(cut := pos.cut + LinesOf(net, n));
    if Feeds(net, p, x, y) {
      var f :| Conducts(net, p, f, x, y);
      assert Conducts(net, q, f, x, y);
    }
    if Feeds(net, q, x, y) {
      var f :| Conducts(net, q, f, x, y);
      assert Conducts(net, p, f, x, y);
    }
  }

  /** A closed neighbour that a whole line with closed ways joins to the node. */
  ghost predicate Reaches(net: Network, pos: Position, a: int, n: int, e: int) {
    && a !in pos.open && e in net.lines && net.lines[e] in {Line(a, n), Line(n, a)}
    && e !in pos.cut && (a, e) !in pos.ways && (n, e) !in pos.ways
  }

  lemma {:induction false} OpenTakesNoMore(net: Network, pos: Position, n: int)
    requires net.Valid() && n in net.nodes
    ensures Live(net, pos.(cut := pos.cut + LinesOf(net, n))) <= Live(net, Place(pos, Device(n), true)) + {n}
  {
    hide Live;
    var p, q := Place(pos, Device(n), true), pos.(cut := pos.cut + LinesOf(net, n));
    forall m | Seed(net, q, m) ensures m in Live(net, p) + {n} {
      if m != n { SeedIsLive(net, p, m); }
    }
    forall a, b | a in Live(net, p) + {n} && Feeds(net, q, a, b) ensures b in Live(net, p) + {n} {
      var f :| Conducts(net, q, f, a, b);
      assert a != n && b != n;
      SameElsewhere(net, pos, n, a, b);
      LiveIsClosed(net, p, a, b);
    }
    LiveIsLeast(net, q, Live(net, p) + {n});
  }

  lemma {:induction false} OpenTakesNoLess(net: Network, pos: Position, n: int)
    requires net.Valid() && n in net.nodes
    ensures Live(net, Place(pos, Device(n), true)) <= Live(net, pos.(cut := pos.cut + LinesOf(net, n))) + {n}
  {
    hide Live;
    var p, q := Place(pos, Device(n), true), pos.(cut := pos.cut + LinesOf(net, n));
    forall m | Seed(net, p, m) ensures m in Live(net, q) + {n} {
      SeedIsLive(net, q, m);
    }
    forall a, b | a in Live(net, q) + {n} && Feeds(net, p, a, b) ensures b in Live(net, q) + {n} {
      if a != n && b != n {
        SameElsewhere(net, pos, n, a, b);
        var f :| Conducts(net, p, f, a, b);
        LiveIsClosed(net, q, a, b);
      }
    }
    LiveIsLeast(net, p, Live(net, q) + {n});
  }

  lemma {:induction false} LastStep(net: Network, pos: Position, n: int) returns (a: int, e: int)
    requires n in Live(net, pos) && !Seed(net, pos, n) && net.Valid()
    ensures a in Live(net, pos) && Reaches(net, pos, a, n, e) && !Blocked(net, pos, n)
  {
    var path :| IsPath(net, pos, path, n);
    var k := |path| - 2;
    assert Feeds(net, pos, path[k], path[k + 1]);
    a := path[k];
    e :| Conducts(net, pos, e, a, n);
    assert IsPath(net, pos, path[..k + 1], a);
  }

  /** Opening a device or disconnecting an object takes from the others what cutting all its lines would. A disconnected
      object is dark; an open switch is energised exactly when an energised neighbour that is not open reaches it. */
  lemma {:induction false} OpenIsCutOff(net: Network, pos: Position, n: int)
    requires net.Valid() && n in net.nodes
    ensures var after, isolated := Place(pos, Device(n), true), pos.(cut := pos.cut + LinesOf(net, n));
      && Live(net, after) - {n} == Live(net, isolated) - {n}
      && (!net.nodes[n].switch ==> n !in Live(net, after))
      && (net.nodes[n].switch ==>
            (n in Live(net, after) <==> exists a, e :: Reaches(net, after, a, n, e) && a in Live(net, after)))
  {
    OpenTakesNoMore(net, pos, n);
    OpenTakesNoLess(net, pos, n);
    hide Live;
    var after := Place(pos, Device(n), true);
    if n in Live(net, after) {
      var a, e := LastStep(net, after, n);
    }
    if a, e :| Reaches(net, after, a, n, e) && a in Live(net, after) && net.nodes[n].switch {
      PowerPasses(net, after, e, a, n);
    }
  }
}
