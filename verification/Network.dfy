/** The power network in memory: nodes, lines, switch positions, and which nodes are energised.
    Positions change by maneuvers; everything else is fixed during a run. */
module Network {
  import opened Listings

  /** `customers` and `substation` are already zero and false for objects that are not operating.
      `up` is the next node towards a source when every switch is in its normal position, 0 when there is none. */
  datatype Node = Node(source: bool, switch: bool, ways: nat, customers: nat, substation: bool, up: int, dist: nat)

  datatype Line = Line(from: int, to: int) {
    function Other(id: int): int {
      if from == id then to else from
    }
    predicate Touches(id: int) {
      from == id || to == id
    }
  }

  datatype Network = Network(nodes: map<int, Node>, lines: map<int, Line>) {
    /** Ids are positive, line ends exist, and following `up` comes closer to a source. */
    ghost predicate Valid() {
      && (forall n :: n in nodes ==> n > 0)
      && (forall e :: e in lines ==> e > 0)
      && (forall e :: e in lines ==> lines[e].from in nodes && lines[e].to in nodes)
      && (forall n :: n in nodes && nodes[n].up != 0 ==>
            nodes[n].up in nodes && nodes[nodes[n].up].dist < nodes[n].dist)
    }
  }

  /** Open devices and disconnected objects, cut lines, and open single ways of multi-way switches. */
  datatype Position = Position(open: set<int>, cut: set<int>, ways: set<(int, int)>)

  /** What a maneuver acts on, and what an outage is attributed to. */
  datatype Target = Device(id: int) | Way(id: int, line: int) | Cut(line: int)

  // ------------------------------------------------------------------ energisation

  predicate Seed(net: Network, pos: Position, n: int) {
    n in net.nodes && net.nodes[n].source && n !in pos.open
  }

  /** An object that is not a switch and is disconnected: power does not enter it. */
  predicate Blocked(net: Network, pos: Position, n: int) {
    n in pos.open && !(n in net.nodes && net.nodes[n].switch)
  }

  predicate Conducts(net: Network, pos: Position, e: int, a: int, b: int) {
    && e in net.lines && net.lines[e].Touches(a) && net.lines[e].Other(a) == b
    && e !in pos.cut && (a, e) !in pos.ways && (b, e) !in pos.ways
    && !Blocked(net, pos, b)
  }

  /** Power passes from `a` to its neighbour `b`; an open switch is energised but passes nothing on. */
  ghost predicate Feeds(net: Network, pos: Position, a: int, b: int) {
    a !in pos.open && exists e :: Conducts(net, pos, e, a, b)
  }

  ghost predicate IsPath(net: Network, pos: Position, path: seq<int>, n: int) {
    && |path| > 0 && Seed(net, pos, path[0]) && path[|path| - 1] == n
    && forall i :: 0 <= i < |path| - 1 ==> Feeds(net, pos, path[i], path[i + 1])
  }

  ghost predicate Fed(net: Network, pos: Position, n: int) {
    exists path :: IsPath(net, pos, path, n)
  }

  /** The energised nodes: those some source reaches. */
  ghost function Live(net: Network, pos: Position): (on: set<int>) {
    set n | n in net.nodes && Fed(net, pos, n)
  }

  ghost predicate Closed(net: Network, pos: Position, s: set<int>) {
    forall a, b :: a in s && Feeds(net, pos, a, b) ==> b in s
  }

  lemma {:induction false} PathStaysInside(net: Network, pos: Position, path: seq<int>, n: int, s: set<int>)
    requires IsPath(net, pos, path, n) && Closed(net, pos, s)
    requires forall m :: Seed(net, pos, m) ==> m in s
    ensures n in s
    decreases |path|
  {
    if |path| > 1 {
      var m := path[|path| - 2];
      assert IsPath(net, pos, path[..|path| - 1], m);
      PathStaysInside(net, pos, path[..|path| - 1], m, s);
      assert Feeds(net, pos, m, n);
    }
  }

  /** The energised nodes are the least set that holds the sources in service and is closed under feeding. */
  lemma LiveIsLeast(net: Network, pos: Position, s: set<int>)
    requires Closed(net, pos, s) && forall m :: Seed(net, pos, m) ==> m in s
    ensures Live(net, pos) <= s
  {
    forall n | n in Live(net, pos) ensures n in s {
      var path :| IsPath(net, pos, path, n);
      PathStaysInside(net, pos, path, n, s);
    }
  }

  ghost predicate FewerOpen(a: Position, b: Position) {
    a.open <= b.open && a.cut <= b.cut && a.ways <= b.ways
  }

  /** Closing anything de-energises nothing. */
  lemma LiveMonotone(net: Network, less: Position, more: Position)
    requires FewerOpen(less, more)
    ensures Live(net, more) <= Live(net, less)
  {
    forall n | n in Live(net, more) ensures n in Live(net, less) {
      var path :| IsPath(net, more, path, n);
      forall i | 0 <= i < |path| - 1 ensures Feeds(net, less, path[i], path[i + 1]) {
        assert Feeds(net, more, path[i], path[i + 1]);
        var e :| Conducts(net, more, e, path[i], path[i + 1]);
        assert Conducts(net, less, e, path[i], path[i + 1]);
      }
      assert IsPath(net, less, path, n);
    }
  }

  // ------------------------------------------------------------------ changing positions

  datatype GraphError = NotInGraph | NotSwitch | WayInvalid

  function CheckTarget(net: Network, t: Target): Option<GraphError> {
    match t
    case Cut(e) => if e in net.lines then None else Some(NotInGraph)
    case Device(n) => if n in net.nodes then None else Some(NotInGraph)
    case Way(n, e) =>
      if n !in net.nodes then Some(NotInGraph)
      else if !net.nodes[n].switch then Some(NotSwitch)
      else if e in net.lines && net.lines[e].Touches(n) then None
      else Some(WayInvalid)
  }

  function IsOpen(pos: Position, t: Target): bool {
    match t
    case Cut(e) => e in pos.cut
    case Device(n) => n in pos.open
    case Way(n, e) => (n, e) in pos.ways
  }

  function Place(pos: Position, t: Target, open: bool): (r: Position)
    ensures IsOpen(r, t) == open
    ensures forall u :: u != t ==> IsOpen(r, u) == IsOpen(pos, u)
    ensures if open then FewerOpen(pos, r) else FewerOpen(r, pos)
  {
    match t
    case Cut(e) => pos.(cut := if open then pos.cut + {e} else pos.cut - {e})
    case Device(n) => pos.(open := if open then pos.open + {n} else pos.open - {n})
    case Way(n, e) => pos.(ways := if open then pos.ways + {(n, e)} else pos.ways - {(n, e)})
  }
}
