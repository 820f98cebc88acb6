/** What lies where and for how long: what each operation on dropped items does, and until when an entity lives. */
module ItemLives {
  import opened Common
  import opened Bags
  import opened DroppedItems

  /** An entity of `item` at `p` that more of it can be added to. */
  ghost predicate LiesAt(s: Store, id: EntityId, p: Pos, item: Item) {
    id in s.items && s.items[id].pos == p && s.items[id].item == item
  }

  lemma {:induction false} TargetIsFirst(items: map<EntityId, Entity>, ids: seq<EntityId>, item: Item)
    ensures MergeTarget(items, ids, item).None? <==>
              forall k :: 0 <= k < |ids| ==> !(ids[k] in items && items[ids[k]].item == item && items[ids[k]].count > 0)
  {
    if ids != [] {
      TargetIsFirst(items, ids[1..], item);
      assert forall k :: 1 <= k < |ids| ==> ids[k] == ids[1..][k - 1];
    }
  }

  lemma LyingIsFound(s: Store, id: EntityId, p: Pos, item: Item)
    requires Indexed(s) && LiesAt(s, id, p, item)
    ensures MergeTarget(s.items, Listed(s.at, p), item).Some?
  {
    TargetIsFirst(s.items, Listed(s.at, p), item);
    assert On(s.at, p, id);
    assert Live(s.items[id]);
  }

  /** Spawning nothing does nothing. Otherwise, if some of the item lies there, one such entity grows by the count and
      lives 6000 ticks from now unless it was to live longer; else a new entity with a new number lies there. */
  lemma WhatSpawningDoes(s: Store, now: nat, p: Pos, item: Item, count: int)
    requires Indexed(s)
    ensures var t := Spawned(s, now, p, item, count);
            if item == "" || count <= 0 then t == s
            else if exists id :: LiesAt(s, id, p, item) then
              && t.next == s.next
              && exists id :: LiesAt(s, id, p, item)
                  && t.items == s.items[id := Entity(p, item, s.items[id].count + count, s.items[id].created,
                                                     Max(s.items[id].expires, now + 6000))]
            else t.next == s.next + 1 && t.items == s.items[s.next + 1 := Entity(p, item, count, now, now + 6000)]
  {
    var target := MergeTarget(s.items, Listed(s.at, p), item);
    if target.Some? {
      assert On(s.at, p, target.value);
      assert LiesAt(s, target.value, p, item);
    }
    if id :| LiesAt(s, id, p, item) {
      LyingIsFound(s, id, p, item);
    }
  }

  /** A cleanup removes exactly the entities whose time has come; zero means never. */
  lemma WhatCleanupDoes(s: Store, now: nat, id: EntityId)
    ensures var t := Cleaned(s, now);
            && (id in t.items <==> id in s.items && (s.items[id].expires == 0 || now < s.items[id].expires))
            && (id in t.items ==> t.items[id] == s.items[id])
  {
  }

  /** Nothing but its own removal, or a cleanup at or after its time, ends an entity; its time is only ever put off. */
  ghost predicate Spares(op: Op, id: EntityId, until: nat) {
    op != Remove(id) && (op.Cleanup? ==> op.now < until)
  }

  lemma SparedLives(s: Store, op: Op, id: EntityId)
    requires Indexed(s) && id in s.items && s.items[id].expires > 0 && Spares(op, id, s.items[id].expires)
    ensures var t := Apply(s, op);
            Indexed(t) && id in t.items && t.items[id].expires >= s.items[id].expires && t.items[id].count > 0
  {
    RunKeepsIndexed(s, [op]);
    assert RunOps(s, [op]) == RunOps(Apply(s, op), []);
    match op
    case Spawn(now, pos, item, count) => WhatSpawningDoes(s, now, pos, item, count);
    case Cleanup(now) => WhatCleanupDoes(s, now, id);
    case _ =>
  }

  /** Over any run an entity with a time set lives until then, unless it is removed. */
  lemma {:induction false} LivesUntilItsTime(s: Store, ops: seq<Op>, id: EntityId)
    requires Indexed(s) && id in s.items && s.items[id].expires > 0
    requires forall op :: op in ops ==> Spares(op, id, s.items[id].expires)
    ensures id in RunOps(s, ops).items && RunOps(s, ops).items[id].expires >= s.items[id].expires
    decreases |ops|
  {
    if ops != [] {
      assert ops[0] in ops;
      SparedLives(s, ops[0], id);
      var t := Apply(s, ops[0]);
      forall op | op in ops[1..] ensures Spares(op, id, t.items[id].expires) {
        assert Spares(op, id, s.items[id].expires);
      }
      LivesUntilItsTime(t, ops[1..], id);
    }
  }
}
