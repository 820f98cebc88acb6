/** The depth-bounded detour search behind MOVE_TO. */
module Detour {
  import opened Common

  datatype Cell = Cell(x: int, z: int)
  datatype Ground = Ground(start: Cell, target: Cell, maxDepth: int, inBounds: Cell -> bool, isSolid: Cell -> bool)
  datatype Item = Item(p: Cell, depth: nat, first: Cell)

  function Dist(a: Cell, b: Cell): nat {
    Abs(a.x - b.x) + Abs(a.z - b.z)
  }

  function Beside(c: Cell, d: nat): Cell
    requires d < 4
  {
    if d == 0 then Cell(c.x + 1, c.z)
    else if d == 1 then Cell(c.x - 1, c.z)
    else if d == 2 then Cell(c.x, c.z + 1)
    else Cell(c.x, c.z - 1)
  }

  predicate Free(g: Ground, c: Cell) {
    g.inBounds(c) && !g.isSolid(c)
  }

  // ----- what a detour is, without a search

  ghost predicate Adjacent(a: Cell, b: Cell) {
    exists d :: 0 <= d < 4 && Beside(a, d) == b
  }

  ghost predicate IsStep(g: Ground, walk: seq<Cell>, k: nat)
    requires 0 < k < |walk|
  {
    Adjacent(walk[k - 1], walk[k]) && g.inBounds(walk[k]) && !g.isSolid(walk[k])
  }

  /** The four neighbours are the cells one step away. */
  lemma NeighboursAreOneStepAway(a: Cell, b: Cell)
    ensures Adjacent(a, b) <==> Abs(b.x - a.x) + Abs(b.z - a.z) == 1
  {
    if !Adjacent(a, b) {
      assert b != Beside(a, 0) && b != Beside(a, 1) && b != Beside(a, 2) && b != Beside(a, 3);
    }
  }

  /** A walk from the start over free cells; the start itself need not be free. */
  ghost predicate IsWalk(g: Ground, walk: seq<Cell>) {
    && walk != [] && walk[0] == g.start
    && forall k :: 0 < k < |walk| ==> IsStep(g, walk, k)
  }

  function Last(walk: seq<Cell>): Cell
    requires walk != []
  {
    walk[|walk| - 1]
  }

  /** A walk of one to maxDepth steps that ends nearer the target than it began. */
  ghost predicate IsDetour(g: Ground, walk: seq<Cell>) {
    IsWalk(g, walk) && 1 < |walk| <= g.maxDepth + 1 && Dist(Last(walk), g.target) < Dist(g.start, g.target)
  }

  predicate NoWorse(dist: nat, depth: nat, dist': nat, depth': nat) {
    dist < dist' || (dist == dist' && depth <= depth')
  }

  /** Which neighbour of the start a first step goes to, in the order they are tried. */
  function Turn(g: Ground, c: Cell): (d: nat)
    ensures d < 4 && ((exists e :: 0 <= e < 4 && Beside(g.start, e) == c) ==> Beside(g.start, d) == c)
  {
    if c == Beside(g.start, 0) then 0
    else if c == Beside(g.start, 1) then 1
    else if c == Beside(g.start, 2) then 2
    else 3
  }

  predicate Leads(g: Ground, walk: seq<Cell>, w: seq<Cell>)
    requires 1 < |walk| && 1 < |w|
  {
    |walk| < |w| || (|walk| == |w| && Turn(g, walk[1]) <= Turn(g, w[1]))
  }

  /** East, west, south, north. */
  lemma TurnsInOrder(g: Ground)
    ensures var x, z := g.start.x, g.start.z;
            Turn(g, Cell(x + 1, z)) == 0 && Turn(g, Cell(x - 1, z)) == 1
            && Turn(g, Cell(x, z + 1)) == 2 && Turn(g, Cell(x, z - 1)) == 3
  {
  }

  /** A shortest walk to its end, and no equally short one sets out by an earlier neighbour. */
  ghost predicate IsLeading(g: Ground, walk: seq<Cell>) {
    && IsWalk(g, walk) && 1 < |walk|
    && forall w :: IsWalk(g, w) && 1 < |w| && Last(w) == Last(walk) ==> Leads(g, walk, w)
  }

  /** Least east-west, then least north-south. */
  predicate NotAfter(a: Cell, b: Cell) {
    a.x < b.x || (a.x == b.x && a.z <= b.z)
  }

  ghost predicate Beats(g: Ground, walk: seq<Cell>, w: seq<Cell>)
    requires 1 < |walk| && 1 < |w|
  {
    && NoWorse(Dist(Last(walk), g.target), |walk| - 1, Dist(Last(w), g.target), |w| - 1)
    && (Dist(Last(walk), g.target) == Dist(Last(w), g.target) && |walk| == |w| && IsLeading(g, w) ==>
          NotAfter(walk[1], w[1]))
  }

  /** Nearest end first, then fewest steps, then the first step that is least in position; each end is reached by its
      leading walk. */
  ghost predicate IsBestDetour(g: Ground, walk: seq<Cell>) {
    IsDetour(g, walk) && IsLeading(g, walk) && forall w :: IsDetour(g, w) ==> Beats(g, walk, w)
  }

  /** So the first step of a best detour is determined. */
  lemma BestStepIsUnique(g: Ground, w: seq<Cell>, v: seq<Cell>)
    requires IsBestDetour(g, w) && IsBestDetour(g, v)
    ensures w[1] == v[1]
  {
    assert Beats(g, w, v) && Beats(g, v, w);
  }

  // ----- the invariants of the search

  ghost predicate IsWitness(g: Ground, it: Item, walk: seq<Cell>) {
    IsWalk(g, walk) && |walk| == it.depth + 1 && it.depth >= 1 && walk[1] == it.first && Last(walk) == it.p
  }

  ghost predicate Witnessed(g: Ground, it: Item) {
    exists walk :: IsWitness(g, it, walk)
  }

  /** Depth first, then the neighbour of the start it descends from: what the queue is sorted by. */
  function Seniority(g: Ground, it: Item): nat {
    4 * it.depth + Turn(g, it.first)
  }

  ghost predicate ItemOk(g: Ground, it: Item, chart: map<Cell, nat>) {
    Witnessed(g, it) && it.depth <= g.maxDepth && it.p in chart && chart[it.p] == Seniority(g, it)
  }

  function Depths(g: Ground): nat {
    if g.maxDepth < 0 then 0 else g.maxDepth
  }

  ghost predicate InQueue(queue: seq<Item>, c: Cell) {
    exists k :: 0 <= k < |queue| && queue[k].p == c
  }

  /** The chart gives the seniority of every visited cell; the queue lists all of them but the start. */
  ghost predicate Charted(g: Ground, queue: seq<Item>, chart: map<Cell, nat>) {
    && g.start in chart && chart[g.start] == 0
    && (forall k {:trigger ItemOk(g, queue[k], chart)} :: 0 <= k < |queue| ==> ItemOk(g, queue[k], chart))
    && (forall c :: c in chart && c != g.start ==> InQueue(queue, c))
    && |chart| == |queue| + 1
    && (forall c :: c in chart ==> 4 * Dist(g.start, c) <= chart[c] <= 4 * Depths(g) + 3)
  }

  ghost predicate Ordered(g: Ground, queue: seq<Item>) {
    forall j, k :: 0 <= j < k < |queue| ==> Seniority(g, queue[j]) <= Seniority(g, queue[k])
  }

  ghost predicate Below(g: Ground, queue: seq<Item>, n: nat) {
    forall k :: 0 <= k < |queue| ==> Seniority(g, queue[k]) <= n
  }

  /** Seniority never decreases along the queue, and from `h` on it spans at most one layer. */
  ghost predicate Layered(g: Ground, queue: seq<Item>, h: nat) {
    Ordered(g, queue) && (h < |queue| ==> Below(g, queue, Seniority(g, queue[h]) + 4))
  }

  ghost predicate ChartBelow(chart: map<Cell, nat>, n: nat) {
    forall c :: c in chart ==> chart[c] <= n
  }

  /** The free neighbours of `c` are charted, at most a layer later. */
  ghost predicate Opened(g: Ground, c: Cell, chart: map<Cell, nat>)
    requires c in chart
  {
    forall d :: 0 <= d < 4 && Free(g, Beside(c, d)) ==> Beside(c, d) in chart && chart[Beside(c, d)] <= chart[c] + 4
  }

  /** Those of the start in the order they are tried. */
  ghost predicate StartOpened(g: Ground, chart: map<Cell, nat>) {
    forall d :: 0 <= d < 4 && Free(g, Beside(g.start, d)) ==>
      Beside(g.start, d) in chart && chart[Beside(g.start, d)] <= 4 + d
  }

  ghost predicate OpenedUpTo(g: Ground, queue: seq<Item>, h: nat, chart: map<Cell, nat>) {
    && StartOpened(g, chart)
    && forall k :: 0 <= k < h && k < |queue| && queue[k].depth < g.maxDepth ==>
         queue[k].p in chart && Opened(g, queue[k].p, chart)
  }

  lemma BesideIsNear(a: Cell, c: Cell, d: nat)
    requires d < 4
    ensures Dist(a, Beside(c, d)) <= Dist(a, c) + 1
  {
  }

  lemma WalkExtends(g: Ground, it: Item, d: nat)
    requires Witnessed(g, it) && d < 4 && Free(g, Beside(it.p, d))
    ensures Witnessed(g, Item(Beside(it.p, d), it.depth + 1, it.first))
  {
    var walk :| IsWitness(g, it, walk);
    var longer := walk + [Beside(it.p, d)];
    assert Adjacent(it.p, Beside(it.p, d));
    forall k | 0 < k < |longer| ensures IsStep(g, longer, k) {
      assert k < |walk| ==> IsStep(g, walk, k);
    }
    assert IsWitness(g, Item(Beside(it.p, d), it.depth + 1, it.first), longer);
  }

  lemma WalkBegins(g: Ground, d: nat)
    requires d < 4 && Free(g, Beside(g.start, d))
    ensures Witnessed(g, Item(Beside(g.start, d), 1, Beside(g.start, d)))
  {
    var walk := [g.start, Beside(g.start, d)];
    assert Adjacent(g.start, Beside(g.start, d));
    assert IsStep(g, walk, 1);
    assert IsWitness(g, Item(Beside(g.start, d), 1, Beside(g.start, d)), walk);
  }

  /** Queueing a new cell keeps the chart. */
  lemma ChartGrows(g: Ground, queue: seq<Item>, chart: map<Cell, nat>, it: Item)
    requires Charted(g, queue, chart) && it.p !in chart
    requires Witnessed(g, it) && it.depth <= g.maxDepth && Dist(g.start, it.p) <= it.depth
    ensures Charted(g, queue + [it], chart[it.p := Seniority(g, it)])
  {
    var queue', chart' := queue + [it], chart[it.p := Seniority(g, it)];
    forall c | c in chart' && c != g.start ensures InQueue(queue', c) {
      if c == it.p {
        assert queue'[|queue|].p == c;
      } else {
        var k :| 0 <= k < |queue| && queue[k].p == c;
        assert queue'[k].p == c;
      }
    }
    forall k | 0 <= k < |queue'| ensures ItemOk(g, queue'[k], chart') {
      assert k < |queue| ==> ItemOk(g, queue[k], chart);
    }
  }

  // ----- opening one cell

  /** The cell a neighbour loop works on: the start when `from` is None, else a dequeued item. */
  function Center(g: Ground, from: Option<Item>): Cell {
    if from.Some? then from.value.p else g.start
  }

  /** What is queued for its d-th neighbour. */
  function Child(g: Ground, from: Option<Item>, d: nat): Item
    requires d < 4
  {
    var np := Beside(Center(g, from), d);
    if from.Some? then Item(np, from.value.depth + 1, from.value.first) else Item(np, 1, np)
  }

  /** No cell is charted later than this when `d` neighbours have been dealt with. */
  function Ceiling(g: Ground, from: Option<Item>, d: nat): nat {
    if from.Some? then Seniority(g, from.value) + 4 else 3 + d
  }

  lemma ChildSeniority(g: Ground, from: Option<Item>, d: nat)
    requires d < 4
    ensures Ceiling(g, from, d) <= Seniority(g, Child(g, from, d)) == Ceiling(g, from, d + 1)
  {
    assert from.None? ==> Turn(g, Beside(g.start, d)) == d;
  }

  ghost predicate Ready(g: Ground, from: Option<Item>) {
    match from
    case Some(it) => Witnessed(g, it) && it.depth < g.maxDepth && Dist(g.start, it.p) <= it.depth
    case None => 0 < g.maxDepth
  }

  /** One neighbour: queued exactly when it is free and new. */
  method Visit(g: Ground, from: Option<Item>, d: nat, queue0: seq<Item>, visited0: set<Cell>,
               ghost chart0: map<Cell, nat>)
    returns (queue: seq<Item>, visited: set<Cell>, ghost chart: map<Cell, nat>)
    requires Charted(g, queue0, chart0) && visited0 == chart0.Keys && Ready(g, from) && d < 4
    ensures Charted(g, queue, chart) && visited == chart.Keys
    ensures var it := Child(g, from, d);
            if it.p !in chart0 && Free(g, it.p)
            then queue == queue0 + [it] && chart == chart0[it.p := Seniority(g, it)]
            else queue == queue0 && chart == chart0
  {
    queue, visited, chart := queue0, visited0, chart0;
    var np := Beside(Center(g, from), d);
    if np !in visited && g.inBounds(np) && !g.isSolid(np) {
      var it := if from.Some? then Item(np, from.value.depth + 1, from.value.first) else Item(np, 1, np);
      if from.Some? {
        WalkExtends(g, from.value, d);
      } else {
        WalkBegins(g, d);
      }
      BesideIsNear(g.start, Center(g, from), d);
      ChartGrows(g, queue, chart, it);
      visited, queue := visited + {np}, queue + [it];
      chart := chart[np := Seniority(g, it)];
    }
  }

  ghost predicate Grown(queue0: seq<Item>, chart0: map<Cell, nat>, queue: seq<Item>, chart: map<Cell, nat>) {
    queue0 <= queue && forall c :: c in chart0 ==> c in chart && chart[c] == chart0[c]
  }

  ghost predicate Seen(g: Ground, from: Option<Item>, d: nat, chart: map<Cell, nat>)
    requires d <= 4
  {
    forall j :: 0 <= j < d && Free(g, Beside(Center(g, from), j)) ==>
      Beside(Center(g, from), j) in chart && chart[Beside(Center(g, from), j)] <= Ceiling(g, from, j + 1)
  }

  /** The first `d` neighbours have been dealt with. */
  ghost predicate Expanding(g: Ground, from: Option<Item>, queue0: seq<Item>, chart0: map<Cell, nat>, d: nat,
                            queue: seq<Item>, visited: set<Cell>, chart: map<Cell, nat>)
    requires d <= 4
  {
    && Charted(g, queue, chart) && visited == chart.Keys && Grown(queue0, chart0, queue, chart)
    && Ordered(g, queue) && ChartBelow(chart, Ceiling(g, from, d)) && Seen(g, from, d, chart)
  }

  lemma OrderedGrows(g: Ground, queue: seq<Item>, chart: map<Cell, nat>, it: Item, n: nat)
    requires Charted(g, queue, chart) && Ordered(g, queue) && ChartBelow(chart, n) && n <= Seniority(g, it)
    ensures Ordered(g, queue + [it])
  {
    forall k | 0 <= k < |queue| ensures Seniority(g, queue[k]) <= n {
      assert ItemOk(g, queue[k], chart);
    }
  }

  lemma SeenMore(g: Ground, from: Option<Item>, d: nat, chart0: map<Cell, nat>, chart: map<Cell, nat>)
    requires d < 4 && Seen(g, from, d, chart0)
    requires forall c :: c in chart0 ==> c in chart && chart[c] == chart0[c]
    requires ChartBelow(chart, Ceiling(g, from, d + 1))
    requires Free(g, Beside(Center(g, from), d)) ==> Beside(Center(g, from), d) in chart
    ensures Seen(g, from, d + 1, chart)
  {
  }

  method VisitNext(g: Ground, from: Option<Item>, ghost queue0: seq<Item>, ghost chart0: map<Cell, nat>, d: nat,
                   q: seq<Item>, v: set<Cell>, ghost m: map<Cell, nat>)
    returns (queue: seq<Item>, visited: set<Cell>, ghost chart: map<Cell, nat>)
    requires d < 4 && Ready(g, from) && Expanding(g, from, queue0, chart0, d, q, v, m)
    ensures Expanding(g, from, queue0, chart0, d + 1, queue, visited, chart)
  {
    queue, visited, chart := Visit(g, from, d, q, v, m);
    ChildSeniority(g, from, d);
    if Child(g, from, d).p !in m && Free(g, Child(g, from, d).p) {
      OrderedGrows(g, q, m, Child(g, from, d), Ceiling(g, from, d));
    }
    SeenMore(g, from, d, m, chart);
  }

  method Expand(g: Ground, from: Option<Item>, queue0: seq<Item>, visited0: set<Cell>, ghost chart0: map<Cell, nat>)
    returns (queue: seq<Item>, visited: set<Cell>, ghost chart: map<Cell, nat>)
    requires Charted(g, queue0, chart0) && visited0 == chart0.Keys && Ready(g, from) && Ordered(g, queue0)
    requires ChartBelow(chart0, Ceiling(g, from, 0))
    ensures Charted(g, queue, chart) && visited == chart.Keys && Grown(queue0, chart0, queue, chart)
    ensures Ordered(g, queue) && ChartBelow(chart, Ceiling(g, from, 4)) && Seen(g, from, 4, chart)
  {
    queue, visited, chart := queue0, visited0, chart0;
    for d := 0 to 4
      invariant Expanding(g, from, queue0, chart0, d, queue, visited, chart)
    {
      queue, visited, chart := VisitNext(g, from, queue0, chart0, d, queue, visited, chart);
    }
  }

  // ----- termination: the chart lies in a finite box

  ghost function Box(g: Ground): set<Cell> {
    set x, z | g.start.x - Depths(g) <= x <= g.start.x + Depths(g)
      && g.start.z - Depths(g) <= z <= g.start.z + Depths(g) :: Cell(x, z)
  }

  lemma QueueFitsBox(g: Ground, queue: seq<Item>, chart: map<Cell, nat>)
    requires Charted(g, queue, chart)
    ensures |queue| < |Box(g)|
  {
    forall c | c in chart ensures c in Box(g) {
      assert c == Cell(c.x, c.z);
    }
    SubsetIsNoLarger(chart.Keys, Box(g));
    assert |chart| == |chart.Keys|;
  }

  // ----- completeness

  lemma ChartedItem(g: Ground, queue: seq<Item>, chart: map<Cell, nat>, c: Cell) returns (it: Item)
    requires Charted(g, queue, chart) && c in chart && c != g.start
    ensures it in queue && it.p == c && ItemOk(g, it, chart)
  {
    assert InQueue(queue, c);
    var k :| 0 <= k < |queue| && queue[k].p == c;
    assert ItemOk(g, queue[k], chart);
    it := queue[k];
  }

  /** With the whole queue opened, no walk reaches a cell sooner than it is charted, nor as soon by an earlier
      neighbour of the start. */
  lemma {:induction false} WalksAreCharted(g: Ground, queue: seq<Item>, chart: map<Cell, nat>, walk: seq<Cell>, k: nat)
    requires Charted(g, queue, chart) && OpenedUpTo(g, queue, |queue|, chart)
    requires IsWalk(g, walk) && 1 <= k < |walk| && k <= g.maxDepth
    ensures walk[k] in chart && chart[walk[k]] <= 4 * k + Turn(g, walk[1])
  {
    assert IsStep(g, walk, k);
    var c := walk[k - 1];
    if k > 1 {
      WalksAreCharted(g, queue, chart, walk, k - 1);
    }
    if c == g.start {
      var d :| 0 <= d < 4 && Beside(c, d) == walk[k];
      assert Turn(g, Beside(g.start, d)) == d;
    } else {
      var it := ChartedItem(g, queue, chart, c);
      assert Opened(g, c, chart);
    }
  }

  // ----- choosing the best

  predicate Improves(g: Ground, it: Item) {
    Dist(it.p, g.target) < Dist(g.start, g.target)
  }

  predicate Better(g: Ground, a: Item, b: Item) {
    var da, db := Dist(a.p, g.target), Dist(b.p, g.target);
    if da != db then da < db
    else if a.depth != b.depth then a.depth < b.depth
    else if a.first.x != b.first.x then a.first.x < b.first.x
    else a.first.z < b.first.z
  }

  ghost predicate BestSoFar(g: Ground, queue: seq<Item>, h: nat, best: Option<Item>) {
    && (best.Some? ==> best.value in queue && Improves(g, best.value))
    && forall k :: 0 <= k < h && k < |queue| && Improves(g, queue[k]) ==>
         best.Some? && !Better(g, queue[k], best.value)
  }

  /** A finished search. */
  ghost predicate Searched(g: Ground, queue: seq<Item>, chart: map<Cell, nat>, best: Option<Item>) {
    && g.maxDepth > 0 && Charted(g, queue, chart) && OpenedUpTo(g, queue, |queue|, chart)
    && BestSoFar(g, queue, |queue|, best)
  }

  lemma ItemLeads(g: Ground, queue: seq<Item>, chart: map<Cell, nat>, it: Item, walk: seq<Cell>, w: seq<Cell>)
    requires Charted(g, queue, chart) && OpenedUpTo(g, queue, |queue|, chart)
    requires ItemOk(g, it, chart) && IsWitness(g, it, walk)
    requires IsWalk(g, w) && 1 < |w| && Last(w) == it.p
    ensures Leads(g, walk, w)
  {
    if |w| <= g.maxDepth + 1 {
      WalksAreCharted(g, queue, chart, w, |w| - 1);
    }
  }

  /** The recorded first step of a cell is that of its leading walks. */
  lemma RecordedFirst(g: Ground, queue: seq<Item>, chart: map<Cell, nat>, it: Item, w: seq<Cell>)
    requires Charted(g, queue, chart) && OpenedUpTo(g, queue, |queue|, chart)
    requires ItemOk(g, it, chart) && IsLeading(g, w) && Last(w) == it.p
    ensures |w| == it.depth + 1 && w[1] == it.first
  {
    var walk :| IsWitness(g, it, walk);
    ItemLeads(g, queue, chart, it, walk, w);
    assert Leads(g, w, walk);
    assert IsStep(g, w, 1) && IsStep(g, walk, 1);
    assert w[1] == Beside(g.start, Turn(g, w[1])) && walk[1] == Beside(g.start, Turn(g, walk[1]));
  }

  lemma DetourIsQueued(g: Ground, queue: seq<Item>, chart: map<Cell, nat>, best: Option<Item>, w: seq<Cell>)
    requires Searched(g, queue, chart, best) && IsDetour(g, w)
    ensures best.Some? && NoWorse(Dist(best.value.p, g.target), best.value.depth, Dist(Last(w), g.target), |w| - 1)
    ensures (IsLeading(g, w) && Dist(best.value.p, g.target) == Dist(Last(w), g.target) && best.value.depth == |w| - 1)
              ==> NotAfter(best.value.first, w[1])
  {
    WalksAreCharted(g, queue, chart, w, |w| - 1);
    var it := ChartedItem(g, queue, chart, Last(w));
    assert !Better(g, it, best.value);
    if IsLeading(g, w) {
      RecordedFirst(g, queue, chart, it, w);
    }
  }

  lemma SearchIsOptimal(g: Ground, queue: seq<Item>, chart: map<Cell, nat>, best: Option<Item>)
    requires Searched(g, queue, chart, best)
    ensures best.None? ==> forall w :: !IsDetour(g, w)
    ensures best.Some? ==> exists w :: IsBestDetour(g, w) && w[1] == best.value.first
  {
    if best.Some? {
      var k :| 0 <= k < |queue| && queue[k] == best.value;
      assert ItemOk(g, queue[k], chart);
      var walk :| IsWitness(g, best.value, walk);
      forall w | IsWalk(g, w) && 1 < |w| && Last(w) == Last(walk) ensures Leads(g, walk, w) {
        ItemLeads(g, queue, chart, best.value, walk, w);
      }
      forall w | IsDetour(g, w) ensures Beats(g, walk, w) {
        DetourIsQueued(g, queue, chart, best, w);
      }
      assert IsBestDetour(g, walk);
    } else {
      forall w ensures !IsDetour(g, w) {
        if IsDetour(g, w) {
          DetourIsQueued(g, queue, chart, best, w);
        }
      }
    }
  }

  method Consider(g: Ground, it: Item, best0: Option<Item>, ghost queue: seq<Item>, ghost h: nat)
    returns (best: Option<Item>)
    requires h < |queue| && it == queue[h] && BestSoFar(g, queue, h, best0)
    ensures BestSoFar(g, queue, h + 1, best)
  {
    best := best0;
    if Improves(g, it) && (best.None? || Better(g, it, best.value)) {
      best := Some(it);
    }
  }

  // ----- the search

  /** The first `head` items have been considered and opened. */
  ghost predicate Searching(g: Ground, q: seq<Item>, head: nat, visited: set<Cell>, chart: map<Cell, nat>,
                            best: Option<Item>)
  {
    && head <= |q| && Charted(g, q, chart) && visited == chart.Keys
    && Layered(g, q, head) && OpenedUpTo(g, q, head, chart) && BestSoFar(g, q, head, best)
  }

  lemma ChartedSeniority(g: Ground, queue: seq<Item>, chart: map<Cell, nat>, h: nat)
    requires Charted(g, queue, chart) && Layered(g, queue, h) && h < |queue|
    ensures ChartBelow(chart, Seniority(g, queue[h]) + 4)
  {
    forall c | c in chart ensures chart[c] <= Seniority(g, queue[h]) + 4 {
      if c != g.start {
        var it := ChartedItem(g, queue, chart, c);
      }
    }
  }

  lemma QueueBelow(g: Ground, queue: seq<Item>, chart: map<Cell, nat>, n: nat)
    requires Charted(g, queue, chart) && ChartBelow(chart, n)
    ensures Below(g, queue, n)
  {
    forall k | 0 <= k < |queue| ensures Seniority(g, queue[k]) <= n {
      assert ItemOk(g, queue[k], chart);
    }
  }

  lemma OpenedStays(g: Ground, c: Cell, chart0: map<Cell, nat>, chart: map<Cell, nat>)
    requires c in chart0 && Opened(g, c, chart0)
    requires forall x :: x in chart0 ==> x in chart && chart[x] == chart0[x]
    ensures Opened(g, c, chart)
  {
  }

  lemma OpenedStep(g: Ground, queue0: seq<Item>, chart0: map<Cell, nat>, queue: seq<Item>, chart: map<Cell, nat>,
                   h: nat)
    requires h < |queue0| && Grown(queue0, chart0, queue, chart) && OpenedUpTo(g, queue0, h, chart0)
    requires queue0[h].depth < g.maxDepth ==> queue0[h].p in chart && Opened(g, queue0[h].p, chart)
    ensures OpenedUpTo(g, queue, h + 1, chart)
  {
    forall k | 0 <= k < h + 1 && queue[k].depth < g.maxDepth
      ensures queue[k].p in chart && Opened(g, queue[k].p, chart)
    {
      assert queue[k] == queue0[k];
      if k < h {
        OpenedStays(g, queue0[k].p, chart0, chart);
      }
    }
  }

  lemma SeenIsOpened(g: Ground, it: Item, chart: map<Cell, nat>)
    requires it.p in chart && chart[it.p] == Seniority(g, it) && Seen(g, Some(it), 4, chart)
    ensures Opened(g, it.p, chart)
  {
    forall d | 0 <= d < 4 && Free(g, Beside(it.p, d))
      ensures Beside(it.p, d) in chart && chart[Beside(it.p, d)] <= chart[it.p] + 4
    {
      assert Beside(Center(g, Some(it)), d) in chart;
    }
  }

  lemma SeenFromStart(g: Ground, chart: map<Cell, nat>)
    requires Seen(g, None, 4, chart)
    ensures StartOpened(g, chart)
  {
    forall d | 0 <= d < 4 && Free(g, Beside(g.start, d))
      ensures Beside(g.start, d) in chart && chart[Beside(g.start, d)] <= 4 + d
    {
      assert Beside(Center(g, None), d) in chart;
    }
  }

  lemma LayersStep(g: Ground, queue0: seq<Item>, queue: seq<Item>, h: nat)
    requires h < |queue0| && queue0 <= queue && Ordered(g, queue) && Below(g, queue, Seniority(g, queue0[h]) + 4)
    ensures Layered(g, queue, h + 1)
  {
    assert queue[h] == queue0[h];
  }

  method OpenItem(g: Ground, q0: seq<Item>, head: nat, visited0: set<Cell>, ghost chart0: map<Cell, nat>)
    returns (q: seq<Item>, visited: set<Cell>, ghost chart: map<Cell, nat>)
    requires head < |q0| && Charted(g, q0, chart0) && visited0 == chart0.Keys
    requires Layered(g, q0, head) && OpenedUpTo(g, q0, head, chart0)
    ensures q0 <= q && Charted(g, q, chart) && visited == chart.Keys
    ensures Layered(g, q, head + 1) && OpenedUpTo(g, q, head + 1, chart)
  {
    var it := q0[head];
    assert ItemOk(g, it, chart0);
    q, visited, chart := q0, visited0, chart0;
    ChartedSeniority(g, q0, chart0, head);
    if it.depth < g.maxDepth {
      q, visited, chart := Expand(g, Some(it), q, visited, chart);
      SeenIsOpened(g, it, chart);
    }
    QueueBelow(g, q, chart, Seniority(g, it) + 4);
    LayersStep(g, q0, q, head);
    OpenedStep(g, q0, chart0, q, chart, head);
  }

  lemma BestStays(g: Ground, queue0: seq<Item>, queue: seq<Item>, h: nat, best: Option<Item>)
    requires h <= |queue0| && queue0 <= queue && BestSoFar(g, queue0, h, best)
    ensures BestSoFar(g, queue, h, best)
  {
    forall k | 0 <= k < h && Improves(g, queue[k]) ensures best.Some? && !Better(g, queue[k], best.value) {
      assert queue[k] == queue0[k];
    }
  }

  method Dequeue(g: Ground, q0: seq<Item>, head: nat, visited0: set<Cell>, ghost chart0: map<Cell, nat>,
                 best0: Option<Item>)
    returns (q: seq<Item>, visited: set<Cell>, ghost chart: map<Cell, nat>, best: Option<Item>)
    requires head < |q0| && Searching(g, q0, head, visited0, chart0, best0)
    ensures Searching(g, q, head + 1, visited, chart, best)
  {
    var it := q0[head];
    best := Consider(g, it, best0, q0, head);
    q, visited, chart := OpenItem(g, q0, head, visited0, chart0);
    BestStays(g, q0, q, head + 1, best);
  }

  lemma OnlyStart(g: Ground)
    ensures Charted(g, [], map[g.start := 0])
  {
  }

  lemma FirstLayer(g: Ground, queue: seq<Item>, chart: map<Cell, nat>)
    requires Charted(g, queue, chart) && Ordered(g, queue) && ChartBelow(chart, 7)
    ensures Layered(g, queue, 0)
  {
    QueueBelow(g, queue, chart, 7);
    if queue != [] {
      assert ItemOk(g, queue[0], chart);
    }
  }

  method Begin(g: Ground) returns (q: seq<Item>, visited: set<Cell>, ghost chart: map<Cell, nat>)
    requires 0 < g.maxDepth
    ensures Searching(g, q, 0, visited, chart, None)
  {
    chart := map[g.start := 0];
    visited := {g.start};
    q := [];
    OnlyStart(g);
    q, visited, chart := Expand(g, None, q, visited, chart);
    FirstLayer(g, q, chart);
    SeenFromStart(g, chart);
  }

  method Search(g: Ground) returns (best: Option<Item>, ghost queue: seq<Item>, ghost chart: map<Cell, nat>)
    requires 0 < g.maxDepth
    ensures Searched(g, queue, chart, best)
  {
    var q, visited;
    q, visited, chart := Begin(g);
    best := None;
    var head := 0;
    while head < |q|
      invariant Searching(g, q, head, visited, chart, best)
      decreases |Box(g)| - head
    {
      QueueFitsBox(g, q, chart);
      q, visited, chart, best := Dequeue(g, q, head, visited, chart, best);
      head := head + 1;
    }
    queue := q;
  }

  /** Returns a step exactly when some detour exists, and then the one that every best detour begins with. */
  method DetourStep2D(g: Ground) returns (r: Option<Cell>)
    ensures r.None? <==> forall w :: !IsDetour(g, w)
    ensures r.Some? ==> exists w :: IsBestDetour(g, w) && w[1] == r.value
    ensures r.Some? ==> forall w :: IsBestDetour(g, w) ==> w[1] == r.value
    ensures r.Some? ==> Abs(r.value.x - g.start.x) + Abs(r.value.z - g.start.z) == 1
    ensures r.Some? ==> g.inBounds(r.value) && !g.isSolid(r.value)
  {
    if g.maxDepth <= 0 {
      return None;
    }
    ghost var queue, chart;
    var best;
    best, queue, chart := Search(g);
    SearchIsOptimal(g, queue, chart, best);
    if best.None? {
      return None;
    }
    ghost var w :| IsBestDetour(g, w) && w[1] == best.value.first;
    assert IsStep(g, w, 1);
    NeighboursAreOneStepAway(g.start, w[1]);
    forall v | IsBestDetour(g, v) ensures v[1] == best.value.first {
      BestStepIsUnique(g, v, w);
    }
    return Some(best.value.first);
  }
}
