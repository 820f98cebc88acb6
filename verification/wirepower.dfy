/** Whether a conveyor is powered: adjacent controls first, then a budgeted search of the wire network. */
module WirePower {
  import opened Common

  datatype Block = Switch | Sensor | Wire | Other
  datatype Env = Env(block: Pos -> Block, switchOn: Pos -> bool, sensorOn: Pos -> bool)

  /** Neighbour `d` in the fixed order +X, -X, +Z, -Z. */
  function Beside(p: Pos, d: nat): Pos
    requires d < 4
  {
    if d == 0 then Pos(p.x + 1, p.y, p.z)
    else if d == 1 then Pos(p.x - 1, p.y, p.z)
    else if d == 2 then Pos(p.x, p.y, p.z + 1)
    else Pos(p.x, p.y, p.z - 1)
  }

  predicate Adjacent(p: Pos, q: Pos) {
    exists d | 0 <= d < 4 :: Beside(p, d) == q
  }

  predicate Active(env: Env, p: Pos) {
    (env.block(p) == Switch && env.switchOn(p)) || (env.block(p) == Sensor && env.sensorOn(p))
  }

  predicate Driven(env: Env, p: Pos) {
    exists d | 0 <= d < 4 :: Active(env, Beside(p, d))
  }

  /** The four neighbours are the cells one step away on the same level. */
  lemma NeighboursAreOneStepAway(p: Pos, q: Pos)
    ensures Adjacent(p, q) <==> q.y == p.y && Abs(q.x - p.x) + Abs(q.z - p.z) == 1
  {
    if Adjacent(p, q) {
    } else {
      assert q != Beside(p, 0) && q != Beside(p, 1) && q != Beside(p, 2) && q != Beside(p, 3);
    }
  }

  /** A position is driven when a switch that is on, or a sensor that is, stands one step away. */
  lemma DrivenMeans(env: Env, p: Pos)
    ensures Driven(env, p) <==>
              exists q: Pos :: q.y == p.y && Abs(q.x - p.x) + Abs(q.z - p.z) == 1
                && ((env.block(q) == Switch && env.switchOn(q)) || (env.block(q) == Sensor && env.sensorOn(q)))
  {
    forall q ensures Adjacent(p, q) <==> q.y == p.y && Abs(q.x - p.x) + Abs(q.z - p.z) == 1 {
      NeighboursAreOneStepAway(p, q);
    }
    if d :| 0 <= d < 4 && Active(env, Beside(p, d)) {
      var q := Beside(p, d);
      assert Adjacent(p, q);
    }
    if q :| Adjacent(p, q) && Active(env, q) {
      var d :| 0 <= d < 4 && Beside(p, d) == q;
    }
  }

  // ----- reachability, without a search

  ghost predicate IsWirePath(env: Env, path: seq<Pos>) {
    && path != []
    && (forall k :: 0 <= k < |path| ==> env.block(path[k]) == Wire)
    && (forall k :: 0 < k < |path| ==> Adjacent(path[k - 1], path[k]))
  }

  ghost predicate Wired(env: Env, starts: seq<Pos>, p: Pos) {
    exists path :: IsWirePath(env, path) && path[0] in starts && path[|path| - 1] == p
  }

  /** Some wire connected to a start touches an active switch or sensor. */
  ghost predicate NetworkDriven(env: Env, starts: seq<Pos>) {
    exists p :: Wired(env, starts, p) && Driven(env, p)
  }

  /** A set holding the whole wire network of the starts. */
  ghost predicate HoldsNetwork(env: Env, starts: seq<Pos>, r: set<Pos>) {
    && (forall p :: p in starts && env.block(p) == Wire ==> p in r)
    && (forall p, d :: p in r && 0 <= d < 4 && env.block(Beside(p, d)) == Wire ==> Beside(p, d) in r)
  }

  lemma StartWired(env: Env, starts: seq<Pos>, p: Pos)
    requires p in starts && env.block(p) == Wire
    ensures Wired(env, starts, p)
  {
    assert IsWirePath(env, [p]);
  }

  lemma WiredExtends(env: Env, starts: seq<Pos>, p: Pos, d: nat)
    requires Wired(env, starts, p) && d < 4 && env.block(Beside(p, d)) == Wire
    ensures Wired(env, starts, Beside(p, d))
  {
    var path :| IsWirePath(env, path) && path[0] in starts && path[|path| - 1] == p;
    var longer := path + [Beside(p, d)];
    assert Adjacent(p, Beside(p, d));
    assert IsWirePath(env, longer);
  }

  lemma {:induction false} PathStaysInside(env: Env, starts: seq<Pos>, r: set<Pos>, path: seq<Pos>, k: nat)
    requires HoldsNetwork(env, starts, r) && IsWirePath(env, path) && path[0] in starts && k < |path|
    ensures path[k] in r
  {
    if k > 0 {
      PathStaysInside(env, starts, r, path, k - 1);
      assert Adjacent(path[k - 1], path[k]);
    }
  }

  lemma NetworkInside(env: Env, starts: seq<Pos>, r: set<Pos>, p: Pos)
    requires HoldsNetwork(env, starts, r) && Wired(env, starts, p)
    ensures p in r
  {
    var path :| IsWirePath(env, path) && path[0] in starts && path[|path| - 1] == p;
    PathStaysInside(env, starts, r, path, |path| - 1);
  }

  // ----- the search

  ghost predicate AllWired(env: Env, starts: seq<Pos>, visited: set<Pos>) {
    forall p :: p in visited ==> env.block(p) == Wire && Wired(env, starts, p)
  }

  /** Processed cells drive nothing, and their wire neighbours have been seen. */
  ghost predicate Exhausted(env: Env, done: set<Pos>, visited: set<Pos>) {
    && (forall p :: p in done ==> !Driven(env, p))
    && (forall p, d :: p in done && 0 <= d < 4 && env.block(Beside(p, d)) == Wire ==> Beside(p, d) in visited)
  }

  method SeedStarts(env: Env, starts: seq<Pos>) returns (visited: set<Pos>, q: seq<Pos>)
    ensures AllWired(env, starts, visited)
    ensures forall p :: p in visited <==> p in q
    ensures forall p :: p in starts && env.block(p) == Wire ==> p in visited
  {
    visited, q := {}, [];
    for k := 0 to |starts|
      invariant AllWired(env, starts, visited)
      invariant forall p :: p in visited <==> p in q
      invariant forall j :: 0 <= j < k && env.block(starts[j]) == Wire ==> starts[j] in visited
    {
      if env.block(starts[k]) == Wire && starts[k] !in visited {
        StartWired(env, starts, starts[k]);
        visited := visited + {starts[k]};
        q := q + [starts[k]];
      }
    }
  }

  method IsDriven(env: Env, p: Pos) returns (r: bool)
    ensures r == Driven(env, p)
  {
    for d := 0 to 4
      invariant forall j :: 0 <= j < d ==> !Active(env, Beside(p, j))
    {
      if Active(env, Beside(p, d)) {
        return true;
      }
    }
    return false;
  }

  lemma AllWiredMore(env: Env, starts: seq<Pos>, p: Pos, d: nat, visited: set<Pos>)
    requires AllWired(env, starts, visited) && p in visited && d < 4 && env.block(Beside(p, d)) == Wire
    ensures AllWired(env, starts, visited + {Beside(p, d)})
  {
    WiredExtends(env, starts, p, d);
  }

  /** The wires among the first `d` neighbours have been seen. */
  ghost predicate Reached(env: Env, p: Pos, d: nat, visited: set<Pos>)
    requires d <= 4
  {
    forall j :: 0 <= j < d && env.block(Beside(p, j)) == Wire ==> Beside(p, j) in visited
  }

  lemma ReachedMore(env: Env, p: Pos, d: nat, visited: set<Pos>, more: set<Pos>)
    requires d < 4 && Reached(env, p, d, visited) && visited <= more
    requires env.block(Beside(p, d)) == Wire ==> Beside(p, d) in more
    ensures Reached(env, p, d + 1, more)
  {
  }

  /** Cells that were seen since have joined the end of the queue. */
  ghost predicate Joined(visited0: set<Pos>, q0: seq<Pos>, visited: set<Pos>, q: seq<Pos>) {
    && visited0 <= visited && q0 <= q && (visited == visited0 ==> q == q0)
    && forall x :: x in visited <==> x in visited0 || x in q[|q0|..]
  }

  lemma JoinedMore(visited0: set<Pos>, q0: seq<Pos>, visited: set<Pos>, q: seq<Pos>, np: Pos)
    requires Joined(visited0, q0, visited, q) && np !in visited
    ensures Joined(visited0, q0, visited + {np}, q + [np])
  {
    assert (q + [np])[|q0|..] == q[|q0|..] + [np];
    assert np in visited + {np} && np !in visited0;
  }

  method Expand(env: Env, ghost starts: seq<Pos>, p: Pos, visited0: set<Pos>, q0: seq<Pos>, maxNodes: int)
    returns (visited: set<Pos>, q: seq<Pos>)
    requires AllWired(env, starts, visited0) && p in visited0
    ensures AllWired(env, starts, visited) && Joined(visited0, q0, visited, q)
    ensures |visited| > maxNodes || Reached(env, p, 4, visited)
  {
    visited, q := visited0, q0;
    for d := 0 to 4
      invariant AllWired(env, starts, visited) && Joined(visited0, q0, visited, q)
      invariant Reached(env, p, d, visited)
    {
      var np := Beside(p, d);
      if np !in visited && env.block(np) == Wire {
        AllWiredMore(env, starts, p, d, visited);
        JoinedMore(visited0, q0, visited, q, np);
        ReachedMore(env, p, d, visited, visited + {np});
        visited := visited + {np};
        q := q + [np];
        if |visited| > maxNodes {
          return;
        }
      } else {
        ReachedMore(env, p, d, visited, visited);
      }
    }
  }

  /** Every cell seen has been processed or waits in the queue. */
  ghost predicate Queued(visited: set<Pos>, done: set<Pos>, q: seq<Pos>) {
    forall p :: p in visited <==> p in done || p in q
  }

  /** All seen cells are wired to a start, the starts have been seen, and within the budget the processed
      cells are exhausted. */
  ghost predicate Searching(env: Env, starts: seq<Pos>, visited: set<Pos>, done: set<Pos>, q: seq<Pos>, maxNodes: int) {
    && AllWired(env, starts, visited) && Queued(visited, done, q)
    && (forall p :: p in starts && env.block(p) == Wire ==> p in visited)
    && (|visited| > maxNodes || Exhausted(env, done, visited))
  }

  lemma ExhaustedGrows(env: Env, done: set<Pos>, visited: set<Pos>, p: Pos, visited': set<Pos>)
    requires Exhausted(env, done, visited) && visited <= visited' && !Driven(env, p)
    requires forall d :: 0 <= d < 4 && env.block(Beside(p, d)) == Wire ==> Beside(p, d) in visited'
    ensures Exhausted(env, done + {p}, visited')
  {
  }

  lemma QueueStep(visited: set<Pos>, done: set<Pos>, q: seq<Pos>, visited': set<Pos>, q': seq<Pos>)
    requires q != [] && Queued(visited, done, q) && q[1..] <= q'
    requires forall x :: x in visited' <==> x in visited || x in q'[|q[1..]|..]
    ensures Queued(visited', done + {q[0]}, q')
  {
    assert q == [q[0]] + q[1..];
    assert q' == q[1..] + q'[|q[1..]|..];
    forall x ensures x in visited' <==> x in done + {q[0]} || x in q' {
      assert x in q <==> x == q[0] || x in q[1..];
      assert x in q' <==> x in q[1..] || x in q'[|q[1..]|..];
    }
  }

  lemma MoreVisited(a: set<Pos>, b: set<Pos>)
    requires a <= b
    ensures |a| <= |b| && (a != b ==> |a| < |b|)
  {
    SubsetIsNoLarger(a, b);
    if a != b {
      var x :| x in b && x !in a;
      SubsetIsNoLarger(a, b - {x});
    }
  }

  /** Takes one cell off the queue: either it is driven, or its wire neighbours join the search. */
  method SearchStep(env: Env, ghost starts: seq<Pos>, visited0: set<Pos>, ghost done0: set<Pos>, q0: seq<Pos>,
                    maxNodes: int)
    returns (driven: bool, visited: set<Pos>, q: seq<Pos>, ghost done: set<Pos>)
    requires Searching(env, starts, visited0, done0, q0, maxNodes) && q0 != [] && |visited0| <= maxNodes
    ensures driven ==> NetworkDriven(env, starts)
    ensures !driven ==> Searching(env, starts, visited, done, q, maxNodes)
    ensures !driven ==> |visited0| < |visited| || (|visited0| == |visited| && |q| < |q0|)
  {
    var p, rest := q0[0], q0[1..];
    assert p in visited0;
    visited, q, done := visited0, q0, done0;
    driven := IsDriven(env, p);
    if driven {
      return;
    }
    visited, q := Expand(env, starts, p, visited0, rest, maxNodes);
    done := done0 + {p};
    QueueStep(visited0, done0, q0, visited, q);
    MoreVisited(visited0, visited);
    if |visited| <= maxNodes {
      ExhaustedGrows(env, done0, visited0, p, visited);
    }
  }

  lemma VisitedInside(env: Env, starts: seq<Pos>, visited: set<Pos>, net: set<Pos>)
    requires AllWired(env, starts, visited) && HoldsNetwork(env, starts, net)
    ensures |visited| <= |net|
  {
    forall p | p in visited ensures p in net {
      NetworkInside(env, starts, net, p);
    }
    SubsetIsNoLarger(visited, net);
  }

  lemma SearchedNetworkIdle(env: Env, starts: seq<Pos>, visited: set<Pos>)
    requires forall p :: p in starts && env.block(p) == Wire ==> p in visited
    requires Exhausted(env, visited, visited)
    ensures !NetworkDriven(env, starts)
  {
    assert HoldsNetwork(env, starts, visited);
    forall p | Wired(env, starts, p) ensures !Driven(env, p) {
      NetworkInside(env, starts, visited, p);
    }
  }

  lemma SearchIsExact(env: Env, starts: seq<Pos>, visited: set<Pos>, done: set<Pos>, q: seq<Pos>, maxNodes: int)
    requires Searching(env, starts, visited, done, q, maxNodes) && (|visited| > maxNodes || q == [])
    ensures forall net :: HoldsNetwork(env, starts, net) && |net| <= maxNodes ==> !NetworkDriven(env, starts)
  {
    forall net | HoldsNetwork(env, starts, net) && |net| <= maxNodes ensures !NetworkDriven(env, starts) {
      VisitedInside(env, starts, visited, net);
      assert visited == done;
      SearchedNetworkIdle(env, starts, visited);
    }
  }

  lemma EmptyNetworkIdle(env: Env, starts: seq<Pos>)
    requires HoldsNetwork(env, starts, {})
    ensures !NetworkDriven(env, starts)
  {
    forall p ensures !Wired(env, starts, p) {
      if Wired(env, starts, p) {
        NetworkInside(env, starts, {}, p);
      }
    }
  }

  /** A true answer always has a wire path behind it. Whenever the network fits the budget the answer is
      exact; the search ends even in an unbounded world. */
  method WirePoweredBySwitch(env: Env, starts: seq<Pos>, maxNodes: int) returns (r: bool)
    ensures r ==> NetworkDriven(env, starts)
    ensures forall net :: HoldsNetwork(env, starts, net) && |net| <= maxNodes ==> (r <==> NetworkDriven(env, starts))
  {
    if |starts| == 0 || maxNodes <= 0 {
      if HoldsNetwork(env, starts, {}) {
        EmptyNetworkIdle(env, starts);
      }
      return false;
    }
    var visited, q := SeedStarts(env, starts);
    ghost var done: set<Pos> := {};
    while |q| > 0 && |visited| <= maxNodes
      invariant Searching(env, starts, visited, done, q, maxNodes)
      decreases maxNodes - |visited|, |q|
    {
      var driven;
      driven, visited, q, done := SearchStep(env, starts, visited, done, q, maxNodes);
      if driven {
        return true;
      }
    }
    SearchIsExact(env, starts, visited, done, q, maxNodes);
    return false;
  }

  // ----- the rule for a conveyor

  predicate IsControl(env: Env, p: Pos) {
    env.block(p) == Switch || env.block(p) == Sensor
  }

  predicate Touches(env: Env, pos: Pos, b: Block) {
    exists d | 0 <= d < 4 :: env.block(Beside(pos, d)) == b
  }

  lemma TouchesMeans(env: Env, pos: Pos, b: Block)
    ensures Touches(env, pos, b) <==>
              exists q: Pos :: q.y == pos.y && Abs(q.x - pos.x) + Abs(q.z - pos.z) == 1 && env.block(q) == b
  {
    forall q ensures Adjacent(pos, q) <==> q.y == pos.y && Abs(q.x - pos.x) + Abs(q.z - pos.z) == 1 {
      NeighboursAreOneStepAway(pos, q);
    }
    if d :| 0 <= d < 4 && env.block(Beside(pos, d)) == b {
      var q := Beside(pos, d);
      assert Adjacent(pos, q);
    }
    if q :| Adjacent(pos, q) && env.block(q) == b {
      var d :| 0 <= d < 4 && Beside(pos, d) == q;
    }
  }

  /** The wires next to a conveyor. */
  ghost predicate AreWiresBeside(env: Env, pos: Pos, starts: seq<Pos>) {
    && (forall p :: p in starts ==> Adjacent(pos, p) && env.block(p) == Wire)
    && (forall d :: 0 <= d < 4 && env.block(Beside(pos, d)) == Wire ==> Beside(pos, d) in starts)
  }

  /** A control beside the conveyor decides alone; otherwise adjacent wires must lead to an active
      control; with neither the conveyor runs. */
  method Enabled(env: Env, pos: Pos, maxNodes: int) returns (r: bool)
    ensures Driven(env, pos) ==> r
    ensures !Driven(env, pos) && (Touches(env, pos, Switch) || Touches(env, pos, Sensor)) ==> !r
    ensures !Touches(env, pos, Switch) && !Touches(env, pos, Sensor) && !Touches(env, pos, Wire) ==> r
    ensures !Touches(env, pos, Switch) && !Touches(env, pos, Sensor) && Touches(env, pos, Wire) ==>
              exists starts :: AreWiresBeside(env, pos, starts)
                && (r ==> NetworkDriven(env, starts))
                && forall net :: HoldsNetwork(env, starts, net) && |net| <= maxNodes ==>
                  (r <==> NetworkDriven(env, starts))
  {
    var found := false;
    for d := 0 to 4
      invariant forall j :: 0 <= j < d ==> !Active(env, Beside(pos, j))
      invariant found <==> exists j :: 0 <= j < d && IsControl(env, Beside(pos, j))
    {
      if IsControl(env, Beside(pos, d)) {
        found := true;
        if Active(env, Beside(pos, d)) {
          return true;
        }
      }
    }
    if found {
      return false;
    }
    assert forall d :: 0 <= d < 4 ==> !IsControl(env, Beside(pos, d));
    var starts := [];
    for d := 0 to 4
      invariant forall p :: p in starts ==> Adjacent(pos, p) && env.block(p) == Wire
      invariant forall j :: 0 <= j < d && env.block(Beside(pos, j)) == Wire ==> Beside(pos, j) in starts
      invariant starts != [] ==> Touches(env, pos, Wire)
    {
      if env.block(Beside(pos, d)) == Wire {
        starts := starts + [Beside(pos, d)];
      }
    }
    if |starts| > 0 {
      assert AreWiresBeside(env, pos, starts);
      r := WirePoweredBySwitch(env, starts, maxNodes);
      return;
    }
    return true;
  }
}
