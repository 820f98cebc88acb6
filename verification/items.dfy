/** Dropped item entities and their position index. Entity ids stand for the counter values behind
    the printed ids. */
module DroppedItems {
  import opened Common
  import opened Bags

  type EntityId = nat
  datatype Entity = Entity(pos: Pos, item: Item, count: int, created: nat, expires: nat)
  datatype Store = Store(items: map<EntityId, Entity>, at: map<Pos, seq<EntityId>>, next: nat)

  const ENTITY_TTL_TICKS: nat := 6000

  function Listed(at: map<Pos, seq<EntityId>>, p: Pos): seq<EntityId> {
    if p in at then at[p] else []
  }

  ghost predicate Distinct(ids: seq<EntityId>) {
    forall j, k :: 0 <= j < k < |ids| ==> ids[j] != ids[k]
  }

  predicate Live(e: Entity) {
    e.item != "" && e.count > 0
  }

  predicate On(at: map<Pos, seq<EntityId>>, p: Pos, id: EntityId) {
    p in at && id in at[p]
  }

  ghost predicate WellListed(at: map<Pos, seq<EntityId>>) {
    forall p :: p in at ==> at[p] != [] && Distinct(at[p])
  }

  ghost predicate Agrees(items: map<EntityId, Entity>, at: map<Pos, seq<EntityId>>) {
    forall p, id :: On(at, p, id) <==> id in items && items[id].pos == p
  }

  ghost predicate AllLive(items: map<EntityId, Entity>, next: nat) {
    forall id :: id in items ==> id <= next && Live(items[id])
  }

  /** The index agreement: lists are non-empty and without repeats, and an id is listed at a position
      exactly when it is an entity standing there. */
  ghost predicate Indexed(s: Store) {
    WellListed(s.at) && Agrees(s.items, s.at) && AllLive(s.items, s.next)
  }

  lemma {:induction false} DistinctCounts(ids: seq<EntityId>, id: EntityId)
    requires Distinct(ids)
    ensures multiset(ids)[id] == if id in ids then 1 else 0
  {
    if ids != [] {
      assert ids == [ids[0]] + ids[1..];
      DistinctCounts(ids[1..], id);
    }
  }

  /** The agreement in terms of occurrences: each entity is listed once, where it stands, and nowhere
      else; nothing else is listed. */
  lemma EachEntityListedExactlyOnce(s: Store, id: EntityId, p: Pos)
    requires Indexed(s)
    ensures multiset(Listed(s.at, p))[id] == if id in s.items && s.items[id].pos == p then 1 else 0
    ensures p in s.at ==> s.at[p] != []
  {
    DistinctCounts(Listed(s.at, p), id);
    assert On(s.at, p, id) <==> id in Listed(s.at, p);
  }

  // ----- what the operations compute

  function MergeTarget(items: map<EntityId, Entity>, ids: seq<EntityId>, item: Item): (t: Option<EntityId>)
    ensures t.Some? ==> t.value in ids && t.value in items && items[t.value].item == item && items[t.value].count > 0
  {
    if ids == [] then None
    else if ids[0] in items && items[ids[0]].item == item && items[ids[0]].count > 0 then Some(ids[0])
    else MergeTarget(items, ids[1..], item)
  }

  function RemoveFirst(ids: seq<EntityId>, id: EntityId): seq<EntityId> {
    if ids == [] then []
    else if ids[0] == id then ids[1..]
    else [ids[0]] + RemoveFirst(ids[1..], id)
  }

  function Unlist(at: map<Pos, seq<EntityId>>, p: Pos, id: EntityId): map<Pos, seq<EntityId>> {
    var ids := RemoveFirst(Listed(at, p), id);
    if ids == [] then at - {p} else at[p := ids]
  }

  function Spawned(s: Store, now: nat, pos: Pos, item: Item, count: int): Store {
    if item == "" || count <= 0 then s
    else
      match MergeTarget(s.items, Listed(s.at, pos), item)
      case Some(id) =>
        var e := s.items[id];
        var exp := now + ENTITY_TTL_TICKS;
        s.(items := s.items[id := e.(count := e.count + count, expires := if exp > e.expires then exp else e.expires)])
      case None =>
        var id := s.next + 1;
        Store(s.items[id := Entity(pos, item, count, now, now + ENTITY_TTL_TICKS)],
              s.at[pos := Listed(s.at, pos) + [id]], id)
  }

  function Removed(s: Store, id: EntityId): Store {
    if id !in s.items then s
    else Store(s.items - {id}, Unlist(s.at, s.items[id].pos, id), s.next)
  }

  function Moved(s: Store, id: EntityId, to: Pos): Store {
    if id !in s.items || s.items[id].pos == to then s
    else
      var at := Unlist(s.at, s.items[id].pos, id);
      Store(s.items[id := s.items[id].(pos := to)], at[to := Listed(at, to) + [id]], s.next)
  }

  predicate Expired(e: Entity, now: nat) {
    e.expires != 0 && now >= e.expires
  }

  function Keep(ids: seq<EntityId>, alive: set<EntityId>): seq<EntityId> {
    if ids == [] then []
    else if ids[0] in alive then [ids[0]] + Keep(ids[1..], alive)
    else Keep(ids[1..], alive)
  }

  function Restricted(s: Store, alive: set<EntityId>): Store {
    Store(map id | id in s.items && id in alive :: s.items[id],
          map p | p in s.at && Keep(s.at[p], alive) != [] :: Keep(s.at[p], alive), s.next)
  }

  function Unexpired(s: Store, now: nat): set<EntityId> {
    set id | id in s.items && !Expired(s.items[id], now)
  }

  /** Cleanup as one filter: the order of the removals leaves no trace. */
  function Cleaned(s: Store, now: nat): Store {
    Restricted(s, Unexpired(s, now))
  }

  // ----- list facts

  lemma {:induction false} RemoveFirstMembers(ids: seq<EntityId>, id: EntityId)
    requires Distinct(ids)
    ensures Distinct(RemoveFirst(ids, id))
    ensures forall x :: x in RemoveFirst(ids, id) <==> x in ids && x != id
  {
    if ids != [] {
      RemoveFirstMembers(ids[1..], id);
      assert ids == [ids[0]] + ids[1..];
      assert forall x :: x in ids <==> x == ids[0] || x in ids[1..];
      assert ids[0] !in ids[1..];
    }
  }

  lemma {:induction false} KeepMembers(ids: seq<EntityId>, alive: set<EntityId>)
    ensures forall x :: x in Keep(ids, alive) <==> x in ids && x in alive
    ensures Distinct(ids) ==> Distinct(Keep(ids, alive))
    ensures (forall x :: x in ids ==> x in alive) ==> Keep(ids, alive) == ids
  {
    if ids != [] {
      KeepMembers(ids[1..], alive);
      assert ids == [ids[0]] + ids[1..];
      assert forall x :: x in ids <==> x == ids[0] || x in ids[1..];
    }
  }

  lemma {:induction false} RemoveFirstAbsent(ids: seq<EntityId>, id: EntityId)
    requires id !in ids
    ensures RemoveFirst(ids, id) == ids
  {
    if ids != [] {
      RemoveFirstAbsent(ids[1..], id);
    }
  }

  lemma {:induction false} KeepUnlisted(ids: seq<EntityId>, alive: set<EntityId>, id: EntityId)
    requires id !in ids
    ensures Keep(ids, alive - {id}) == Keep(ids, alive)
  {
    if ids != [] {
      KeepUnlisted(ids[1..], alive, id);
    }
  }

  lemma {:induction false} KeepThenRemove(ids: seq<EntityId>, alive: set<EntityId>, id: EntityId)
    requires Distinct(ids)
    ensures RemoveFirst(Keep(ids, alive), id) == Keep(ids, alive - {id})
  {
    if ids != [] {
      KeepThenRemove(ids[1..], alive, id);
      KeepMembers(ids[1..], alive);
      assert ids[0] !in ids[1..];
      if ids[0] == id {
        KeepUnlisted(ids[1..], alive, id);
        RemoveFirstAbsent(Keep(ids[1..], alive), id);
      }
      if ids[0] in alive {
        assert Keep(ids, alive)[1..] == Keep(ids[1..], alive);
      }
    }
  }

  // ----- every operation keeps the agreement and accounts for its items

  function Weight(e: Entity, i: Item): int {
    if e.item == i then e.count else 0
  }

  ghost function Weights(s: Store, i: Item): map<EntityId, int> {
    map id | id in s.items :: Weight(s.items[id], i)
  }

  ghost function Dropped(s: Store, i: Item): int {
    SumMap(Weights(s, i))
  }

  /** Appending an unlisted id lists exactly that one more. */
  lemma ListGrows(at: map<Pos, seq<EntityId>>, p: Pos, id: EntityId)
    requires WellListed(at) && !On(at, p, id)
    ensures WellListed(at[p := Listed(at, p) + [id]])
    ensures forall q, x :: On(at[p := Listed(at, p) + [id]], q, x) <==> On(at, q, x) || (q == p && x == id)
  {
  }

  lemma WeightsAfterSet(s: Store, t: Store, id: EntityId)
    requires id in t.items && t.items == s.items[id := t.items[id]]
    ensures forall i :: Dropped(t, i)
                     == Dropped(s, i) + Weight(t.items[id], i) - if id in s.items then Weight(s.items[id], i) else 0
  {
    forall i
      ensures Dropped(t, i)
           == Dropped(s, i) + Weight(t.items[id], i) - if id in s.items then Weight(s.items[id], i) else 0
    {
      assert Weights(t, i) == Weights(s, i)[id := Weight(t.items[id], i)];
      SumSet(Weights(s, i), id, Weight(t.items[id], i));
    }
  }

  lemma SpawnKeeps(s: Store, now: nat, pos: Pos, item: Item, count: int)
    requires Indexed(s)
    ensures Indexed(Spawned(s, now, pos, item, count))
    ensures forall i :: Dropped(Spawned(s, now, pos, item, count), i)
                     == Dropped(s, i) + if i == item && item != "" && count > 0 then count else 0
  {
    var t := Spawned(s, now, pos, item, count);
    if item != "" && count > 0 {
      var target := MergeTarget(s.items, Listed(s.at, pos), item);
      var id := if target.Some? then target.value else s.next + 1;
      assert t.items == s.items[id := t.items[id]];
      if target.None? {
        assert !On(s.at, pos, id);
        ListGrows(s.at, pos, id);
        forall p, x ensures On(t.at, p, x) <==> x in t.items && t.items[x].pos == p {
          assert On(s.at, p, x) <==> x in s.items && s.items[x].pos == p;
        }
      }
      WeightsAfterSet(s, t, id);
    }
  }

  /** Unlisting removes exactly the one occurrence. */
  lemma ListShrinks(at: map<Pos, seq<EntityId>>, p: Pos, id: EntityId)
    requires WellListed(at) && p in at
    ensures WellListed(Unlist(at, p, id))
    ensures forall q, x :: On(Unlist(at, p, id), q, x) <==> On(at, q, x) && !(q == p && x == id)
  {
    RemoveFirstMembers(at[p], id);
  }

  lemma RemoveKeeps(s: Store, id: EntityId)
    requires Indexed(s)
    ensures Indexed(Removed(s, id))
    ensures forall i :: Dropped(Removed(s, id), i)
                     == Dropped(s, i) - if id in s.items then Weight(s.items[id], i) else 0
  {
    if id in s.items {
      var t := Removed(s, id);
      assert On(s.at, s.items[id].pos, id);
      ListShrinks(s.at, s.items[id].pos, id);
      forall p, x ensures On(t.at, p, x) <==> x in t.items && t.items[x].pos == p {
        assert On(s.at, p, x) <==> x in s.items && s.items[x].pos == p;
      }
      forall i ensures Dropped(t, i) == Dropped(s, i) - Weight(s.items[id], i) {
        assert Weights(t, i) == Weights(s, i) - {id};
        SumRemove(Weights(s, i), id);
      }
    }
  }

  lemma MoveKeeps(s: Store, id: EntityId, to: Pos)
    requires Indexed(s)
    ensures Indexed(Moved(s, id, to))
    ensures forall i :: Dropped(Moved(s, id, to), i) == Dropped(s, i)
  {
    if id in s.items && s.items[id].pos != to {
      var t := Moved(s, id, to);
      var from := s.items[id].pos;
      var at := Unlist(s.at, from, id);
      assert On(s.at, from, id);
      ListShrinks(s.at, from, id);
      assert !On(s.at, to, id);
      assert !On(at, to, id);
      ListGrows(at, to, id);
      forall p, x ensures On(t.at, p, x) <==> x in t.items && t.items[x].pos == p {
        assert On(s.at, p, x) <==> x in s.items && s.items[x].pos == p;
        assert On(t.at, p, x) <==> On(at, p, x) || (p == to && x == id);
      }
      WeightsAfterSet(s, t, id);
    }
  }

  lemma RestrictKeeps(s: Store, alive: set<EntityId>)
    requires Indexed(s)
    ensures Indexed(Restricted(s, alive))
  {
    var t := Restricted(s, alive);
    forall p | p in t.at ensures Distinct(t.at[p]) {
      KeepMembers(s.at[p], alive);
    }
    forall p, x ensures On(t.at, p, x) <==> x in t.items && t.items[x].pos == p {
      assert On(s.at, p, x) <==> x in s.items && s.items[x].pos == p;
      if p in s.at {
        KeepMembers(s.at[p], alive);
      }
    }
  }

  datatype Op =
    | Spawn(now: nat, pos: Pos, item: Item, count: int)
    | Remove(id: EntityId)
    | Move(id: EntityId, to: Pos)
    | Cleanup(now: nat)

  function Apply(s: Store, op: Op): Store {
    match op
    case Spawn(now, pos, item, count) => Spawned(s, now, pos, item, count)
    case Remove(id) => Removed(s, id)
    case Move(id, to) => Moved(s, id, to)
    case Cleanup(now) => Cleaned(s, now)
  }

  function RunOps(s: Store, ops: seq<Op>): Store
    decreases |ops|
  {
    if ops == [] then s else RunOps(Apply(s, ops[0]), ops[1..])
  }

  /** Any interleaving of the four operations keeps the index in agreement with the entities. */
  lemma {:induction false} RunKeepsIndexed(s: Store, ops: seq<Op>)
    requires Indexed(s)
    ensures Indexed(RunOps(s, ops))
    decreases |ops|
  {
    if ops != [] {
      match ops[0] {
        case Spawn(now, pos, item, count) => SpawnKeeps(s, now, pos, item, count);
        case Remove(id) => RemoveKeeps(s, id);
        case Move(id, to) => MoveKeeps(s, id, to);
        case Cleanup(now) => RestrictKeeps(s, Unexpired(s, now));
      }
      RunKeepsIndexed(Apply(s, ops[0]), ops[1..]);
    }
  }

  // ----- the imperative form

  method FindMergeTarget(items: map<EntityId, Entity>, ids: seq<EntityId>, item: Item) returns (t: Option<EntityId>)
    ensures t == MergeTarget(items, ids, item)
    ensures t.None? ==> forall id :: id in ids && id in items ==> items[id].item != item || items[id].count <= 0
  {
    for i := 0 to |ids|
      invariant MergeTarget(items, ids, item) == MergeTarget(items, ids[i..], item)
      invariant forall k :: 0 <= k < i && ids[k] in items ==> items[ids[k]].item != item || items[ids[k]].count <= 0
    {
      assert ids[i..][1..] == ids[i + 1..];
      if ids[i] in items && items[ids[i]].item == item && items[ids[i]].count > 0 {
        return Some(ids[i]);
      }
    }
    return None;
  }

  method RemoveID(ids: seq<EntityId>, id: EntityId) returns (r: seq<EntityId>)
    ensures r == RemoveFirst(ids, id)
  {
    for i := 0 to |ids|
      invariant id !in ids[..i]
      invariant RemoveFirst(ids, id) == ids[..i] + RemoveFirst(ids[i..], id)
    {
      assert ids[i..][1..] == ids[i + 1..];
      if ids[i] == id {
        return ids[..i] + ids[i + 1..];
      }
      assert ids[..i + 1] == ids[..i] + [ids[i]];
    }
    assert ids[..|ids|] == ids;
    return ids;
  }

  lemma RestrictToAll(s: Store)
    requires Indexed(s)
    ensures Restricted(s, s.items.Keys) == s
  {
    forall p | p in s.at ensures Keep(s.at[p], s.items.Keys) == s.at[p] {
      KeepMembers(s.at[p], s.items.Keys);
      forall x | x in s.at[p] ensures x in s.items {
        assert On(s.at, p, x);
      }
    }
    assert Restricted(s, s.items.Keys).items == s.items;
    assert Restricted(s, s.items.Keys).at == s.at;
  }

  lemma UnlistRestricted(s: Store, alive: set<EntityId>, id: EntityId, p: Pos)
    requires p in s.at && Keep(s.at[p], alive) != []
    requires RemoveFirst(Keep(s.at[p], alive), id) == Keep(s.at[p], alive - {id})
    requires forall q :: q in s.at && q != p ==> Keep(s.at[q], alive) == Keep(s.at[q], alive - {id})
    ensures Unlist(Restricted(s, alive).at, p, id) == Restricted(s, alive - {id}).at
  {
    var t, u := Unlist(Restricted(s, alive).at, p, id), Restricted(s, alive - {id}).at;
    forall q ensures q in t <==> q in u {
    }
    forall q | q in t ensures t[q] == u[q] {
    }
  }

  lemma RestrictOneMore(s: Store, alive: set<EntityId>, id: EntityId)
    requires Indexed(s) && id in alive && alive <= s.items.Keys
    ensures Removed(Restricted(s, alive), id) == Restricted(s, alive - {id})
  {
    assert Removed(Restricted(s, alive), id).items == Restricted(s, alive - {id}).items;
    var p := s.items[id].pos;
    assert On(s.at, p, id);
    KeepThenRemove(s.at[p], alive, id);
    KeepMembers(s.at[p], alive);
    forall q | q in s.at && q != p ensures Keep(s.at[q], alive) == Keep(s.at[q], alive - {id}) {
      assert !On(s.at, q, id);
      KeepUnlisted(s.at[q], alive, id);
    }
    UnlistRestricted(s, alive, id, p);
  }

  class ItemStore {
    var items: map<EntityId, Entity>
    var itemsAt: map<Pos, seq<EntityId>>
    var nextNum: nat

    function View(): Store
      reads this
    {
      Store(items, itemsAt, nextNum)
    }

    constructor ()
      ensures View() == Store(map[], map[], 0) && Indexed(View())
    {
      items, itemsAt, nextNum := map[], map[], 0;
    }

    method Spawn(now: nat, pos: Pos, item: Item, count: int) returns (id: Option<EntityId>)
      modifies this
      ensures View() == Spawned(old(View()), now, pos, item, count)
      ensures id.Some? <==> item != "" && count > 0
      ensures id.Some? ==> id.value in items && items[id.value].item == item && items[id.value].count >= count
    {
      if item == "" || count <= 0 {
        return None;
      }
      var target := FindMergeTarget(items, Listed(itemsAt, pos), item);
      if target.Some? {
        var e := items[target.value];
        e := e.(count := e.count + count);
        var exp := now + ENTITY_TTL_TICKS;
        if exp > e.expires {
          e := e.(expires := exp);
        }
        items := items[target.value := e];
        return target;
      }
      nextNum := nextNum + 1;
      items := items[nextNum := Entity(pos, item, count, now, now + ENTITY_TTL_TICKS)];
      itemsAt := itemsAt[pos := Listed(itemsAt, pos) + [nextNum]];
      return Some(nextNum);
    }

    method Remove(id: EntityId)
      modifies this
      ensures View() == Removed(old(View()), id)
    {
      if id !in items {
        return;
      }
      var e := items[id];
      items := items - {id};
      var ids := RemoveID(Listed(itemsAt, e.pos), id);
      if |ids| == 0 {
        itemsAt := itemsAt - {e.pos};
      } else {
        itemsAt := itemsAt[e.pos := ids];
      }
    }

    method Move(id: EntityId, to: Pos)
      modifies this
      ensures View() == Moved(old(View()), id, to)
    {
      if id !in items || items[id].pos == to {
        return;
      }
      var from := items[id].pos;
      var ids := RemoveID(Listed(itemsAt, from), id);
      if |ids| == 0 {
        itemsAt := itemsAt - {from};
      } else {
        itemsAt := itemsAt[from := ids];
      }
      itemsAt := itemsAt[to := Listed(itemsAt, to) + [id]];
      items := items[id := items[id].(pos := to)];
    }

    /** Removes the expired entities one by one, in whatever order they are listed. */
    method CleanupExpired(now: nat)
      requires Indexed(View())
      modifies this
      ensures View() == Cleaned(old(View()), now)
      ensures Indexed(View())
    {
      ghost var start := View();
      var expired := set id | id in items && Expired(items[id], now);
      ghost var alive := items.Keys;
      RestrictToAll(start);
      while expired != {}
        invariant expired <= alive <= start.items.Keys
        invariant alive - expired == Unexpired(start, now)
        invariant View() == Restricted(start, alive)
        decreases expired
      {
        var id :| id in expired;
        RestrictOneMore(start, alive, id);
        Remove(id);
        alive := alive - {id};
        expired := expired - {id};
      }
      assert alive == alive - expired;
      RestrictKeeps(start, alive);
    }
  }
}
