/** Containers and the two-pass conveyor tick over dropped items. */
module Conveyor {
  import opened Common
  import opened Bags
  import opened Coords
  import opened DroppedItems

  datatype Container = Container(kind: string, inventory: Bag, reserved: Bag, owed: map<AgentId, Bag>) {
    function Available(i: Item): int {
      Count(inventory, i) - Count(reserved, i)
    }
  }

  datatype Belts = Belts(containers: map<Pos, Container>, store: Store)

  /** What stays fixed during one tick: belt directions, blocks, and the power rule, which may look at
      the current items and containers (sensors do). */
  datatype Grid = Grid(
    belts: map<Pos, (int, int)>,
    isBelt: Pos -> bool,
    blocked: Pos -> bool,
    enabled: (Belts, Pos) -> bool)

  predicate IsUnit(dir: (int, int)) {
    Abs(dir.0) + Abs(dir.1) == 1
  }

  /** The direction of a belt laid at a yaw in degrees. */
  function YawToDir(yaw: int): (dir: (int, int))
    ensures IsUnit(dir)
  {
    match (Mod(yaw, 360) + 45) / 90 % 4
    case 0 => (0, 1)
    case 1 => (1, 0)
    case 2 => (0, -1)
    case _ => (-1, 0)
  }

  /** The yaw that points along a direction. */
  function Heading(dir: (int, int)): (yaw: int)
    requires IsUnit(dir)
    ensures 0 <= yaw < 360
  {
    if dir == (0, 1) then 0 else if dir == (1, 0) then 90 else if dir == (0, -1) then 180 else 270
  }

  /** The angle between two yaws, at most half a turn. */
  function Angle(a: int, b: int): int {
    var d := Mod(a - b, 360);
    if d <= 180 then d else 360 - d
  }

  /** The angle between yaws `d` apart, for less than a whole turn. */
  function Fold(d: int): int {
    if Abs(d) <= 180 then Abs(d) else 360 - Abs(d)
  }

  lemma AngleWithin(yaw: int, turns: int, y: int, h: int)
    requires yaw == 360 * turns + y && 0 <= y < 360 && 0 <= h < 360
    ensures Angle(yaw, h) == Fold(y - h)
  {
    if y >= h {
      FloorAndModUnique(yaw - h, 360, turns, y - h);
    } else {
      FloorAndModUnique(yaw - h, 360, turns - 1, y - h + 360);
    }
  }

  /** The four quarters of a turn, each centred on its direction. */
  function Quarter(y: int): (dir: (int, int))
    ensures IsUnit(dir)
  {
    if 45 <= y < 135 then (1, 0) else if 135 <= y < 225 then (0, -1) else if 225 <= y < 315 then (-1, 0) else (0, 1)
  }

  lemma QuarterOf(y: int)
    requires 0 <= y < 360
    ensures Quarter(y) == match (y + 45) / 90 % 4 case 0 => (0, 1) case 1 => (1, 0) case 2 => (0, -1) case _ => (-1, 0)
  {
  }

  lemma TurnOf(yaw: int, turns: int, y: int)
    requires yaw == 360 * turns + y && 0 <= y < 360
    ensures YawToDir(yaw) == Quarter(y)
  {
    FloorAndModUnique(yaw, 360, turns, y);
    QuarterOf(y);
  }

  lemma FoldIsNearest(y: int, dir: (int, int))
    requires 0 <= y < 360 && IsUnit(dir)
    ensures Fold(y - Heading(Quarter(y))) <= 45 && Fold(y - Heading(Quarter(y))) <= Fold(y - Heading(dir))
  {
  }

  lemma NearestWithin(yaw: int, turns: int, y: int, dir: (int, int))
    requires yaw == 360 * turns + y && 0 <= y < 360 && IsUnit(dir)
    ensures Angle(yaw, Heading(YawToDir(yaw))) <= 45
    ensures Angle(yaw, Heading(YawToDir(yaw))) <= Angle(yaw, Heading(dir))
  {
    TurnOf(yaw, turns, y);
    AngleWithin(yaw, turns, y, Heading(Quarter(y)));
    AngleWithin(yaw, turns, y, Heading(dir));
    FoldIsNearest(y, dir);
  }

  /** For every yaw, negative ones too, the belt runs within 45 degrees of it, and no other direction is nearer. */
  lemma YawIsNearest(yaw: int, dir: (int, int))
    requires IsUnit(dir)
    ensures Angle(yaw, Heading(YawToDir(yaw))) <= 45
    ensures Angle(yaw, Heading(YawToDir(yaw))) <= Angle(yaw, Heading(dir))
  {
    FloorAndMod(yaw, 360);
    NearestWithin(yaw, FloorDiv(yaw, 360), Mod(yaw, 360), dir);
  }

  /** Belts laid by yaw are one cell long. */
  ghost predicate UnitBelts(g: Grid) {
    forall p :: p in g.belts ==> IsUnit(g.belts[p])
  }

  lemma LayingKeepsUnitBelts(g: Grid, p: Pos, yaw: int)
    requires UnitBelts(g)
    ensures UnitBelts(g.(belts := g.belts[p := YawToDir(yaw)]))
  {
  }

  function Ahead(g: Grid, p: Pos): Pos {
    if p in g.belts then Pos(p.x + g.belts[p].0, p.y, p.z + g.belts[p].1) else p
  }

  function Behind(g: Grid, p: Pos): Pos {
    if p in g.belts then Pos(p.x - g.belts[p].0, p.y, p.z - g.belts[p].1) else p
  }

  predicate Runs(g: Grid, b: Belts, p: Pos) {
    p in g.belts && g.belts[p] != (0, 0) && g.enabled(b, p)
  }

  // ----- one step of each pass

  function Inserted(b: Belts, id: EntityId, to: Pos): Belts
    requires id in b.store.items && to in b.containers
  {
    var e, c := b.store.items[id], b.containers[to];
    Belts(b.containers[to := c.(inventory := c.inventory[e.item := Count(c.inventory, e.item) + e.count])],
          Removed(b.store, id))
  }

  function Pushed(g: Grid, b: Belts, id: EntityId): Belts {
    if id !in b.store.items || !Live(b.store.items[id]) then b
    else
      var p := b.store.items[id].pos;
      if !g.isBelt(p) || !Runs(g, b, p) then b
      else if Ahead(g, p) in b.containers then Inserted(b, id, Ahead(g, p))
      else if g.blocked(Ahead(g, p)) then b
      else b.(store := Moved(b.store, id, Ahead(g, p)))
  }

  function Candidates(c: Container): set<Item> {
    set i | i in c.inventory && i != "" && c.inventory[i] > 0 && c.Available(i) > 0
  }

  ghost function PickAvailable(c: Container): Item {
    if Candidates(c) == {} then "" else Least(Candidates(c))
  }

  predicate Occupied(s: Store, p: Pos) {
    exists id :: id in Listed(s.at, p) && id in s.items && Live(s.items[id])
  }

  function Withdrawn(b: Belts, now: nat, p: Pos, back: Pos, item: Item): Belts
    requires back in b.containers
  {
    var c := b.containers[back];
    Belts(b.containers[back := c.(inventory := Drain(c.inventory, map[item := 1]))],
          Spawned(b.store, now, p, item, 1))
  }

  ghost function Pulled(g: Grid, b: Belts, now: nat, p: Pos): Belts {
    if !Runs(g, b, p) || Occupied(b.store, p) || Behind(g, p) !in b.containers then b
    else
      var item := PickAvailable(b.containers[Behind(g, p)]);
      if item == "" then b else Withdrawn(b, now, p, Behind(g, p), item)
  }

  function PushAll(g: Grid, b: Belts, ids: seq<EntityId>): Belts
    decreases |ids|
  {
    if ids == [] then b else PushAll(g, Pushed(g, b, ids[0]), ids[1..])
  }

  ghost function PullAll(g: Grid, b: Belts, now: nat, ps: seq<Pos>): Belts
    decreases |ps|
  {
    if ps == [] then b else PullAll(g, Pulled(g, b, now, ps[0]), now, ps[1..])
  }

  ghost function Tick(g: Grid, b: Belts, now: nat, ids: seq<EntityId>, ps: seq<Pos>): Belts {
    if g.belts == map[] then b else PullAll(g, PushAll(g, b, ids), now, ps)
  }

  // ----- what a tick keeps

  /** Escrow is covered: nothing reserved is missing. */
  ghost predicate Covered(c: Container) {
    forall i :: 0 <= Count(c.reserved, i) <= Count(c.inventory, i)
  }

  ghost predicate Sound(b: Belts) {
    Indexed(b.store) && forall p :: p in b.containers ==> Covered(b.containers[p])
  }

  ghost function OwedCounts(owed: map<AgentId, Bag>, i: Item): map<AgentId, int> {
    map a | a in owed :: Count(owed[a], i)
  }

  ghost function OwedTotal(owed: map<AgentId, Bag>, i: Item): int {
    SumMap(OwedCounts(owed, i))
  }

  ghost function Holding(c: Container, i: Item): int {
    Count(c.inventory, i) + OwedTotal(c.owed, i)
  }

  ghost function Holdings(cs: map<Pos, Container>, i: Item): map<Pos, int> {
    map p | p in cs :: Holding(cs[p], i)
  }

  /** Everything the machinery holds of one item: containers, what they owe, and the floor. */
  ghost function Stock(b: Belts, i: Item): int {
    SumMap(Holdings(b.containers, i)) + Dropped(b.store, i)
  }

  /** Belts only ever touch inventories: types, reservations and debts are left alone. */
  ghost predicate SameEscrow(b: Belts, b': Belts) {
    && b'.containers.Keys == b.containers.Keys
    && forall p :: p in b.containers ==>
         && b'.containers[p].kind == b.containers[p].kind
         && b'.containers[p].reserved == b.containers[p].reserved
         && b'.containers[p].owed == b.containers[p].owed
  }

  ghost predicate Kept(b: Belts, b': Belts) {
    Sound(b') && SameEscrow(b, b') && forall i :: Stock(b', i) == Stock(b, i)
  }

  lemma HoldingsAfterSet(b: Belts, p: Pos, c: Container, i: Item)
    requires p in b.containers
    ensures SumMap(Holdings(b.containers[p := c], i))
         == SumMap(Holdings(b.containers, i)) - Holding(b.containers[p], i) + Holding(c, i)
  {
    assert Holdings(b.containers[p := c], i) == Holdings(b.containers, i)[p := Holding(c, i)];
    SumSet(Holdings(b.containers, i), p, Holding(c, i));
  }

  lemma InsertKeeps(b: Belts, id: EntityId, to: Pos)
    requires Sound(b) && id in b.store.items && to in b.containers
    ensures Kept(b, Inserted(b, id, to))
  {
    var b' := Inserted(b, id, to);
    RemoveKeeps(b.store, id);
    forall i ensures Stock(b', i) == Stock(b, i) {
      HoldingsAfterSet(b, to, b'.containers[to], i);
    }
    assert Live(b.store.items[id]);
    forall i ensures Count(b.containers[to].reserved, i) <= Count(b'.containers[to].inventory, i) {
      assert Count(b.containers[to].reserved, i) <= Count(b.containers[to].inventory, i);
    }
  }

  lemma PushKeeps(g: Grid, b: Belts, id: EntityId)
    requires Sound(b)
    ensures Kept(b, Pushed(g, b, id))
  {
    var b' := Pushed(g, b, id);
    if b' != b {
      var p := b.store.items[id].pos;
      if Ahead(g, p) in b.containers {
        InsertKeeps(b, id, Ahead(g, p));
      } else {
        MoveKeeps(b.store, id, Ahead(g, p));
      }
    }
  }

  lemma WithdrawKeeps(b: Belts, now: nat, p: Pos, back: Pos, item: Item)
    requires Sound(b) && back in b.containers && item in Candidates(b.containers[back])
    ensures Kept(b, Withdrawn(b, now, p, back, item))
  {
    var b' := Withdrawn(b, now, p, back, item);
    SpawnKeeps(b.store, now, p, item, 1);
    var c, c' := b.containers[back], b'.containers[back];
    forall i ensures Count(c'.inventory, i) == Count(c.inventory, i) - if i == item then 1 else 0 {
    }
    forall i ensures Stock(b', i) == Stock(b, i) {
      HoldingsAfterSet(b, back, c', i);
    }
    forall i ensures 0 <= Count(c'.reserved, i) <= Count(c'.inventory, i) {
      assert 0 <= Count(c.reserved, i) <= Count(c.inventory, i);
      assert i == item ==> c.Available(i) > 0;
    }
  }

  lemma PullKeeps(g: Grid, b: Belts, now: nat, p: Pos)
    requires Sound(b)
    ensures Kept(b, Pulled(g, b, now, p))
  {
    if Runs(g, b, p) && !Occupied(b.store, p) && Behind(g, p) in b.containers {
      var item := PickAvailable(b.containers[Behind(g, p)]);
      if item != "" {
        WithdrawKeeps(b, now, p, Behind(g, p), item);
      }
    }
  }

  lemma {:induction false} PushAllKeeps(g: Grid, b: Belts, ids: seq<EntityId>)
    requires Sound(b)
    ensures Kept(b, PushAll(g, b, ids))
    decreases |ids|
  {
    if ids != [] {
      PushKeeps(g, b, ids[0]);
      PushAllKeeps(g, Pushed(g, b, ids[0]), ids[1..]);
    }
  }

  lemma {:induction false} PullAllKeeps(g: Grid, b: Belts, now: nat, ps: seq<Pos>)
    requires Sound(b)
    ensures Kept(b, PullAll(g, b, now, ps))
    decreases |ps|
  {
    if ps != [] {
      PullKeeps(g, b, now, ps[0]);
      PullAllKeeps(g, Pulled(g, b, now, ps[0]), now, ps[1..]);
    }
  }

  /** A whole tick, in any order of items and belts, keeps the index agreement and the escrow cover and
      neither creates nor destroys an item. */
  lemma TickKeeps(g: Grid, b: Belts, now: nat, ids: seq<EntityId>, ps: seq<Pos>)
    requires Sound(b)
    ensures Kept(b, Tick(g, b, now, ids, ps))
  {
    if g.belts != map[] {
      PushAllKeeps(g, b, ids);
      PullAllKeeps(g, PushAll(g, b, ids), now, ps);
    }
  }

  /** Whatever happens to the dropped items, on the floor or through a whole belt tick. */
  datatype BeltOp = OnFloor(op: Op) | TickOnce(g: Grid, now: nat, ids: seq<EntityId>, ps: seq<Pos>)

  ghost function BeltRun(b: Belts, ops: seq<BeltOp>): Belts
    decreases |ops|
  {
    if ops == [] then b
    else BeltRun(match ops[0]
                 case OnFloor(op) => b.(store := Apply(b.store, op))
                 case TickOnce(g, now, ids, ps) => Tick(g, b, now, ids, ps), ops[1..])
  }

  /** Any interleaving of spawning, removing, moving, cleaning up and whole belt ticks keeps the index
      agreement and the escrow cover. */
  lemma {:induction false} BeltRunsStaySound(b: Belts, ops: seq<BeltOp>)
    requires Sound(b)
    ensures Sound(BeltRun(b, ops))
    decreases |ops|
  {
    if ops != [] {
      match ops[0] {
        case OnFloor(op) =>
          RunKeepsIndexed(b.store, [op]);
          assert RunOps(b.store, [op]) == RunOps(Apply(b.store, op), []);
          BeltRunsStaySound(b.(store := Apply(b.store, op)), ops[1..]);
        case TickOnce(g, now, ids, ps) =>
          TickKeeps(g, b, now, ids, ps);
          BeltRunsStaySound(Tick(g, b, now, ids, ps), ops[1..]);
      }
    }
  }

  // ----- one cell per tick

  ghost predicate MovedOneCell(g: Grid, from: Entity, to: Entity) {
    to.item == from.item && (to.pos == from.pos || to.pos == Ahead(g, from.pos))
  }

  lemma {:induction false} PushAllMoves(g: Grid, b0: Belts, b: Belts, ids: seq<EntityId>, id: EntityId)
    requires Distinct(ids)
    requires id in PushAll(g, b, ids).store.items
    requires id in b.store.items ==>
               id in b0.store.items
               && (if id in ids then b.store.items[id] == b0.store.items[id]
                   else MovedOneCell(g, b0.store.items[id], b.store.items[id]))
    ensures id in b0.store.items
    ensures MovedOneCell(g, b0.store.items[id], PushAll(g, b, ids).store.items[id])
    ensures PushAll(g, b, ids).store.next == b.store.next
    ensures PushAll(g, b, ids).store.items.Keys <= b.store.items.Keys
    decreases |ids|
  {
    if ids == [] {
      assert PushAll(g, b, ids) == b;
    } else {
      assert ids[0] !in ids[1..];
      assert forall x :: x in ids <==> x == ids[0] || x in ids[1..];
      var b1 := Pushed(g, b, ids[0]);
      assert PushAll(g, b, ids) == PushAll(g, b1, ids[1..]);
      PushAllMoves(g, b0, b1, ids[1..], id);
    }
  }

  lemma {:induction false} PullAllStill(g: Grid, b: Belts, now: nat, ps: seq<Pos>, id: EntityId)
    requires forall x :: x in b.store.items ==> x <= b.store.next
    ensures id in b.store.items ==>
              && id in PullAll(g, b, now, ps).store.items
              && PullAll(g, b, now, ps).store.items[id].pos == b.store.items[id].pos
              && PullAll(g, b, now, ps).store.items[id].item == b.store.items[id].item
    ensures id <= b.store.next && id !in b.store.items ==> id !in PullAll(g, b, now, ps).store.items
    ensures b.store.next <= PullAll(g, b, now, ps).store.next
    decreases |ps|
  {
    if ps != [] {
      var b1 := Pulled(g, b, now, ps[0]);
      if b1 != b {
        var item := PickAvailable(b.containers[Behind(g, ps[0])]);
        assert b1 == Withdrawn(b, now, ps[0], Behind(g, ps[0]), item);
      }
      PullAllStill(g, b1, now, ps[1..], id);
    }
  }

  lemma {:induction false} PushAllNext(g: Grid, b: Belts, ids: seq<EntityId>)
    ensures PushAll(g, b, ids).store.next == b.store.next
    decreases |ids|
  {
    if ids != [] {
      PushAllNext(g, Pushed(g, b, ids[0]), ids[1..]);
    }
  }

  /** An entity present before and after a tick moved by at most its own belt's step, which is one cell on
      belts laid by yaw, although the tick edits the index while walking it. */
  lemma EntitiesMoveAtMostOneCell(g: Grid, b: Belts, now: nat, ids: seq<EntityId>, ps: seq<Pos>, id: EntityId)
    requires Sound(b) && Distinct(ids)
    requires id in b.store.items && id in Tick(g, b, now, ids, ps).store.items
    ensures MovedOneCell(g, b.store.items[id], Tick(g, b, now, ids, ps).store.items[id])
    ensures UnitBelts(g) ==> Manhattan(b.store.items[id].pos, Tick(g, b, now, ids, ps).store.items[id].pos) <= 1
  {
    if g.belts != map[] {
      var m := PushAll(g, b, ids);
      PushAllKeeps(g, b, ids);
      PullAllStill(g, m, now, ps, id);
      if id in m.store.items {
        PushAllMoves(g, b, b, ids, id);
      } else {
        PushAllNext(g, b, ids);
      }
    }
  }

  // ----- the imperative form

  method PickAvailableItem(c: Container) returns (item: Item)
    ensures item == PickAvailable(c)
    ensures item != "" ==> item in c.inventory && c.Available(item) > 0
    ensures item == "" ==> forall i :: i in c.inventory && i != "" && c.inventory[i] > 0 ==> c.Available(i) <= 0
  {
    var keys: set<Item> := {};
    var todo := c.inventory.Keys;
    while todo != {}
      invariant todo <= c.inventory.Keys
      invariant keys == set i | i in Candidates(c) && i !in todo
      decreases todo
    {
      var i :| i in todo;
      if i != "" && c.inventory[i] > 0 && c.Available(i) > 0 {
        keys := keys + {i};
      }
      todo := todo - {i};
    }
    assert keys == Candidates(c);
    if keys == {} {
      forall i | i in c.inventory && i != "" && c.inventory[i] > 0 ensures c.Available(i) <= 0 {
        assert i !in Candidates(c);
      }
      return "";
    }
    item := LeastOf(keys);
    LeastUnique(keys, item, Least(keys));
  }

  ghost predicate Lists<T(!new)>(order: seq<T>, s: set<T>) {
    && (forall x :: x in order <==> x in s)
    && (forall j, k :: 0 <= j < k < |order| ==> order[j] != order[k])
  }

  lemma ListsMore<T(!new)>(order: seq<T>, s: set<T>, x: T)
    requires Lists(order, s) && x !in s
    ensures Lists(order + [x], s + {x})
  {
  }

  lemma ListsNothing<T(!new)>(order: seq<T>, s: set<T>)
    requires Lists(order, s)
    ensures order != [] ==> s != {}
  {
    if order != [] {
      assert order[0] in s;
    }
  }

  lemma {:induction false} PushAllLast(g: Grid, b: Belts, ids: seq<EntityId>, id: EntityId)
    ensures PushAll(g, b, ids + [id]) == Pushed(g, PushAll(g, b, ids), id)
    decreases |ids|
  {
    if ids == [] {
      assert (ids + [id])[1..] == [];
    } else {
      assert (ids + [id])[1..] == ids[1..] + [id];
      PushAllLast(g, Pushed(g, b, ids[0]), ids[1..], id);
    }
  }

  lemma {:induction false} PullAllLast(g: Grid, b: Belts, now: nat, ps: seq<Pos>, p: Pos)
    ensures PullAll(g, b, now, ps + [p]) == Pulled(g, PullAll(g, b, now, ps), now, p)
    decreases |ps|
  {
    if ps == [] {
      assert (ps + [p])[1..] == [];
    } else {
      assert (ps + [p])[1..] == ps[1..] + [p];
      PullAllLast(g, Pulled(g, b, now, ps[0]), now, ps[1..], p);
    }
  }

  class BeltWorld {
    var containers: map<Pos, Container>
    const store: ItemStore

    constructor (containers: map<Pos, Container>)
      ensures this.containers == containers && fresh(store) && store.View() == Store(map[], map[], 0)
    {
      this.containers := containers;
      store := new ItemStore();
    }

    function View(): Belts
      reads this, store
    {
      Belts(containers, store.View())
    }

    method Push(g: Grid, id: EntityId)
      modifies this, store
      ensures View() == Pushed(g, old(View()), id)
    {
      if id !in store.items || !Live(store.items[id]) {
        return;
      }
      var e := store.items[id];
      if !g.isBelt(e.pos) || e.pos !in g.belts || g.belts[e.pos] == (0, 0) || !g.enabled(View(), e.pos) {
        return;
      }
      var to := Ahead(g, e.pos);
      if to in containers {
        var c := containers[to];
        containers := containers[to := c.(inventory := c.inventory[e.item := Count(c.inventory, e.item) + e.count])];
        store.Remove(id);
      } else if !g.blocked(to) {
        store.Move(id, to);
      }
    }

    method Pull(g: Grid, now: nat, p: Pos)
      requires p in g.belts
      modifies this, store
      ensures View() == Pulled(g, old(View()), now, p)
    {
      if g.belts[p] == (0, 0) || !g.enabled(View(), p) {
        return;
      }
      var ids := Listed(store.itemsAt, p);
      for k := 0 to |ids|
        invariant forall j :: 0 <= j < k ==> !(ids[j] in store.items && Live(store.items[ids[j]]))
      {
        if ids[k] in store.items && Live(store.items[ids[k]]) {
          assert ids[k] in Listed(store.View().at, p);
          return;
        }
      }
      var back := Behind(g, p);
      if back !in containers {
        return;
      }
      var c := containers[back];
      var item := PickAvailableItem(c);
      if item == "" {
        return;
      }
      var inventory := c.inventory[item := c.inventory[item] - 1];
      if inventory[item] <= 0 {
        inventory := inventory - {item};
      }
      assert inventory == Drain(c.inventory, map[item := 1]);
      containers := containers[back := c.(inventory := inventory)];
      var _ := store.Spawn(now, p, item, 1);
    }

    /** One conveyor tick. The item and belt orders are returned for the specification; nothing is
        assumed of them beyond listing the live items and the placed belts once each. */
    method Run(g: Grid, now: nat) returns (ghost ids: seq<EntityId>, ghost ps: seq<Pos>)
      requires Sound(View())
      modifies this, store
      ensures View() == Tick(g, old(View()), now, ids, ps)
      ensures Lists(ids, old(store.items).Keys)
      ensures Lists(ps, set p | p in g.belts && g.isBelt(p))
      ensures Kept(old(View()), View())
    {
      ids, ps := [], [];
      ghost var start := View();
      var items := store.items.Keys;
      var places := set p | p in g.belts && g.isBelt(p);
      ghost var allPlaces := places;
      while items != {}
        invariant items <= old(store.items).Keys && Lists(ids, old(store.items).Keys - items)
        invariant g.belts != map[] ==> View() == PushAll(g, start, ids)
        invariant g.belts == map[] ==> View() == start
        decreases items
      {
        var id :| id in items;
        ListsMore(ids, old(store.items).Keys - items, id);
        PushAllLast(g, start, ids, id);
        if g.belts != map[] {
          Push(g, id);
        }
        ids := ids + [id];
        items := items - {id};
        assert old(store.items).Keys - items == old(store.items).Keys - items - {id} + {id};
      }
      assert old(store.items).Keys - items == old(store.items).Keys;
      ghost var mid := View();
      while places != {}
        invariant places <= allPlaces && Lists(ps, allPlaces - places)
        invariant View() == PullAll(g, mid, now, ps)
        decreases places
      {
        var p :| p in places;
        ListsMore(ps, allPlaces - places, p);
        PullAllLast(g, mid, now, ps, p);
        Pull(g, now, p);
        ps := ps + [p];
        places := places - {p};
      }
      assert allPlaces - places == allPlaces;
      if g.belts == map[] {
        ListsNothing(ps, allPlaces);
      }
      TickKeeps(g, start, now, ids, ps);
    }
  }
}
