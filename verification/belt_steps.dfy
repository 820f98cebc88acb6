/** What one belt does and when, told from the grid, the entities and the containers alone. */
module BeltSteps {
  import opened Common
  import opened Bags
  import opened DroppedItems
  import opened Conveyor

  ghost predicate Driven(g: Grid, b: Belts, p: Pos) {
    p in g.belts && g.belts[p] != (0, 0) && g.enabled(b, p)
  }

  /** The cell `n` belt lengths along from `p`, back for negative `n`. */
  function Along(p: Pos, dir: (int, int), n: int): Pos {
    Pos(p.x + n * dir.0, p.y, p.z + n * dir.1)
  }

  /** The entity lies on a standing belt that runs. */
  ghost predicate Carried(g: Grid, b: Belts, id: EntityId) {
    id in b.store.items && var e := b.store.items[id];
    e.item != "" && e.count > 0 && g.isBelt(e.pos) && Driven(g, b, e.pos)
  }

  // ----- moving on

  /** Only what is carried moves: into the container ahead if there is one, with all its count; else onto the cell
      ahead unless that is blocked. Nothing else changes. */
  lemma WhatPushingDoes(g: Grid, b: Belts, id: EntityId)
    ensures !Carried(g, b, id) ==> Pushed(g, b, id) == b
    ensures Carried(g, b, id) ==>
              var e, b' := b.store.items[id], Pushed(g, b, id);
              var to := Along(e.pos, g.belts[e.pos], 1);
              if to in b.containers then
                var c, c' := b.containers[to], b'.containers[to];
                && b'.containers == b.containers[to := c.(inventory := c'.inventory)]
                && (forall i :: Count(c'.inventory, i) == Count(c.inventory, i) + if i == e.item then e.count else 0)
                && b'.store.items == b.store.items - {id}
              else if g.blocked(to) then b' == b
              else b'.containers == b.containers && b'.store.items == b.store.items[id := e.(pos := to)]
  {
    if Carried(g, b, id) {
      var e, b' := b.store.items[id], Pushed(g, b, id);
      var to := Along(e.pos, g.belts[e.pos], 1);
      assert to == Ahead(g, e.pos);
      if to !in b.containers && !g.blocked(to) {
        assert b'.store == Moved(b.store, id, to);
        assert to == e.pos ==> e.(pos := to) == e && b.store.items[id := e] == b.store.items;
      }
    }
  }

  // ----- pulling out of a container

  ghost predicate Free(b: Belts, p: Pos) {
    forall id :: id in b.store.items && b.store.items[id].pos == p ==>
      b.store.items[id].item == "" || b.store.items[id].count <= 0
  }

  /** In the container there is some of `i` beyond what is reserved of it. */
  ghost predicate Offers(c: Container, i: Item) {
    i != "" && Count(c.inventory, i) > 0 && Count(c.inventory, i) > Count(c.reserved, i)
  }

  ghost predicate OffersAny(c: Container) {
    exists i :: Offers(c, i)
  }

  ghost predicate IsFirstOffer(c: Container, i: Item) {
    Offers(c, i) && forall j :: Offers(c, j) ==> Leq(i, j)
  }

  ghost predicate Pulls(g: Grid, b: Belts, p: Pos) {
    && Driven(g, b, p) && Free(b, p) && Along(p, g.belts[p], 0 - 1) in b.containers
    && OffersAny(b.containers[Along(p, g.belts[p], 0 - 1)])
  }

  lemma OffersAreCandidates(c: Container, i: Item)
    ensures Offers(c, i) <==> i in Candidates(c)
  {
  }

  lemma FirstOffer(c: Container)
    requires OffersAny(c)
    ensures PickAvailable(c) != "" && IsFirstOffer(c, PickAvailable(c))
    ensures forall i :: IsFirstOffer(c, i) ==> i == PickAvailable(c)
  {
    forall i ensures Offers(c, i) <==> i in Candidates(c) {
      OffersAreCandidates(c, i);
    }
    var i :| Offers(c, i);
    assert Candidates(c) != {};
    forall j | IsFirstOffer(c, j) ensures j == PickAvailable(c) {
      assert IsLeast(j, Candidates(c));
      LeastUnique(Candidates(c), j, PickAvailable(c));
    }
  }

  lemma NoOffer(c: Container)
    requires !OffersAny(c)
    ensures PickAvailable(c) == ""
  {
    forall i ensures i !in Candidates(c) {
      OffersAreCandidates(c, i);
    }
  }

  lemma FreeIsUnoccupied(b: Belts, p: Pos)
    requires Indexed(b.store)
    ensures Free(b, p) <==> !Occupied(b.store, p)
  {
    forall id ensures id in Listed(b.store.at, p) <==> id in b.store.items && b.store.items[id].pos == p {
      assert On(b.store.at, p, id) <==> id in b.store.items && b.store.items[id].pos == p;
    }
  }

  /** A new entity with one unit of `i` lies at `p`, and the container has one less of it. */
  ghost predicate OnePulled(b: Belts, b': Belts, now: nat, p: Pos, back: Pos, i: Item)
    requires back in b.containers
  {
    && back in b'.containers
    && b'.containers == b.containers[back := b.containers[back].(inventory := b'.containers[back].inventory)]
    && (forall j :: Count(b'.containers[back].inventory, j)
                 == Count(b.containers[back].inventory, j) - if j == i then 1 else 0)
    && b'.store.items == b.store.items[b.store.next + 1 := Entity(p, i, 1, now, now + 6000)]
  }

  lemma FreeSpawnsNew(s: Store, now: nat, p: Pos, item: Item)
    requires Indexed(s) && item != "" && !Occupied(s, p)
    ensures Spawned(s, now, p, item, 1).items == s.items[s.next + 1 := Entity(p, item, 1, now, now + 6000)]
  {
    var t := MergeTarget(s.items, Listed(s.at, p), item);
    if t.Some? {
      assert Live(s.items[t.value]);
    }
  }

  /** A belt pulls exactly one unit of the first item its container offers, just when it runs and nothing lies on it;
      otherwise nothing changes. */
  lemma WhatPullingDoes(g: Grid, b: Belts, now: nat, p: Pos)
    requires Indexed(b.store)
    ensures !Pulls(g, b, p) ==> Pulled(g, b, now, p) == b
    ensures Pulls(g, b, p) ==>
              var back := Along(p, g.belts[p], 0 - 1);
              exists i :: IsFirstOffer(b.containers[back], i) && OnePulled(b, Pulled(g, b, now, p), now, p, back, i)
  {
    FreeIsUnoccupied(b, p);
    if p in g.belts {
      var back := Along(p, g.belts[p], 0 - 1);
      assert back == Behind(g, p);
      if Pulls(g, b, p) {
        var c := b.containers[back];
        FirstOffer(c);
        var i := PickAvailable(c);
        assert Pulled(g, b, now, p) == Withdrawn(b, now, p, back, i);
        FreeSpawnsNew(b.store, now, p, i);
        assert OnePulled(b, Pulled(g, b, now, p), now, p, back, i);
      } else if back in b.containers && Driven(g, b, p) && Free(b, p) {
        NoOffer(b.containers[back]);
      }
    }
  }

  // ----- a whole tick

  /** The state of the tick when the walk over the items has dealt with the first `j`. */
  ghost function AfterPushes(g: Grid, b: Belts, ids: seq<EntityId>, j: nat): Belts
    requires j <= |ids|
  {
    PushAll(g, b, ids[..j])
  }

  lemma {:induction false} PushAllSplits(g: Grid, b: Belts, ids: seq<EntityId>, j: nat)
    requires j <= |ids|
    ensures PushAll(g, b, ids) == PushAll(g, AfterPushes(g, b, ids, j), ids[j..])
    decreases |ids|
  {
    if j == 0 {
      assert ids[..0] == [] && ids[0..] == ids;
    } else {
      assert ids[..j][1..] == ids[1..][..j - 1] && ids[1..][j - 1..] == ids[j..];
      PushAllSplits(g, Pushed(g, b, ids[0]), ids[1..], j - 1);
    }
  }

  /** Nobody else's turn touches an entity. */
  lemma {:induction false} OthersLeaveAlone(g: Grid, b: Belts, ids: seq<EntityId>, id: EntityId)
    requires id !in ids
    ensures id in PushAll(g, b, ids).store.items <==> id in b.store.items
    ensures id in b.store.items ==> PushAll(g, b, ids).store.items[id] == b.store.items[id]
    ensures PushAll(g, b, ids).containers.Keys == b.containers.Keys
    decreases |ids|
  {
    if ids != [] {
      WhatPushingDoes(g, b, ids[0]);
      OthersLeaveAlone(g, Pushed(g, b, ids[0]), ids[1..], id);
    }
  }

  /** What becomes of an entity in the whole tick is decided in the state its turn comes in. */
  ghost predicate Fate(g: Grid, b: Belts, turn: Belts, end: Belts, id: EntityId)
    requires id in b.store.items && id in turn.store.items && turn.store.items[id] == b.store.items[id]
  {
    var e := b.store.items[id];
    if !Carried(g, turn, id) then id in end.store.items && end.store.items[id].pos == e.pos
    else
      var to := Along(e.pos, g.belts[e.pos], 1);
      if to in b.containers then id !in end.store.items
      else id in end.store.items && end.store.items[id].pos == if g.blocked(to) then e.pos else to
  }

  lemma TurnDecides(g: Grid, b: Belts, now: nat, ids: seq<EntityId>, ps: seq<Pos>, j: nat)
    requires Sound(b) && Distinct(ids) && g.belts != map[] && j < |ids| && ids[j] in b.store.items
    ensures var turn := AfterPushes(g, b, ids, j);
            && ids[j] in turn.store.items && turn.store.items[ids[j]] == b.store.items[ids[j]]
            && Fate(g, b, turn, Tick(g, b, now, ids, ps), ids[j])
  {
    var id, turn := ids[j], AfterPushes(g, b, ids, j);
    OthersLeaveAlone(g, b, ids[..j], id);
    PushAllSplits(g, b, ids, j);
    assert ids[j..][0] == id && ids[j..][1..] == ids[j + 1..];
    WhatPushingDoes(g, turn, id);
    OthersLeaveAlone(g, Pushed(g, turn, id), ids[j + 1..], id);
    var m := PushAll(g, b, ids);
    PushAllKeeps(g, b, ids);
    PushAllNext(g, b, ids);
    PullAllStill(g, m, now, ps, id);
  }

  /** An entity whose belt runs at no moment of the tick ends where it was. */
  lemma StoppedBeltHolds(g: Grid, b: Belts, now: nat, ids: seq<EntityId>, ps: seq<Pos>, id: EntityId)
    requires Sound(b) && Distinct(ids) && id in ids && id in b.store.items
    requires forall j :: 0 <= j <= |ids| ==> !Driven(g, AfterPushes(g, b, ids, j), b.store.items[id].pos)
    ensures var end := Tick(g, b, now, ids, ps);
            id in end.store.items && end.store.items[id].pos == b.store.items[id].pos
  {
    if g.belts != map[] {
      var j :| 0 <= j < |ids| && ids[j] == id;
      TurnDecides(g, b, now, ids, ps, j);
      assert !Driven(g, AfterPushes(g, b, ids, j), b.store.items[id].pos);
    }
  }

  /** One whose belt runs throughout ends one step along it if the cell ahead is open, and in the container if one
      stands there. */
  lemma RunningBeltCarries(g: Grid, b: Belts, now: nat, ids: seq<EntityId>, ps: seq<Pos>, id: EntityId)
    requires Sound(b) && Distinct(ids) && id in ids && id in b.store.items
    requires var p := b.store.items[id].pos;
             && g.isBelt(p) && p in g.belts
             && forall j :: 0 <= j <= |ids| ==> Driven(g, AfterPushes(g, b, ids, j), p)
    ensures var p, end := b.store.items[id].pos, Tick(g, b, now, ids, ps);
            var to := Along(p, g.belts[p], 1);
            if to in b.containers then id !in end.store.items
            else id in end.store.items && end.store.items[id].pos == if g.blocked(to) then p else to
  {
    var j :| 0 <= j < |ids| && ids[j] == id;
    assert Driven(g, AfterPushes(g, b, ids, j), b.store.items[id].pos);
    TurnDecides(g, b, now, ids, ps, j);
    assert Live(b.store.items[id]);
  }
}
