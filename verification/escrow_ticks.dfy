/** What a tick does to each contract, told from the contract, its terminal and the clock alone. */
module EscrowTicks {
  import opened Common
  import opened Bags
  import opened DroppedItems
  import opened Conveyor
  import opened Escrow
  import opened EscrowSafety
  import opened EscrowLifecycle
  import opened EscrowPayouts
  import opened EscrowOrder

  ghost predicate Running(c: Contract) {
    c.status == Open || c.status == Accepted
  }

  /** At terminal `p` there is enough of everything required beyond what is reserved. */
  ghost predicate GoodsAt(s: State, p: Pos, requirements: Bag) {
    && p in s.belts.containers
    && forall i :: i in requirements ==>
         requirements[i] + Count(s.belts.containers[p].reserved, i) <= Count(s.belts.containers[p].inventory, i)
  }

  /** The work of an accepted contract is done: the goods lie ready, or the build stands. */
  ghost predicate WorkDone(s: State, c: Contract, built: bool) {
    c.status == Accepted && if c.kind == Build then built else GoodsAt(s, c.terminal, c.requirements)
  }

  /** One contract comes up at `now`: a settled one is left alone; a running one fails without its terminal, and then
      nothing is paid, or past its deadline, is completed when its work is done, and otherwise nothing happens. */
  lemma WhatSettlingDoes(s: State, cid: ContractId, now: nat, built: bool)
    requires cid in s.contracts
    ensures var c, t := s.contracts[cid], Settled(s, cid, now, built);
            && t.contracts.Keys == s.contracts.Keys
            && (!Running(c) ==> t == s)
            && (Running(c) && c.terminal !in s.belts.containers ==>
                  t == s.(contracts := s.contracts[cid := c.(status := Failed)]))
            && (Running(c) && c.terminal in s.belts.containers && c.deadline < now ==>
                  t.contracts[cid].status == Failed)
            && (Running(c) && c.terminal in s.belts.containers && now <= c.deadline ==>
                  if WorkDone(s, c, built) then t.contracts[cid].status == Completed else t == s)
  {
    var c := s.contracts[cid];
    if c.terminal in s.belts.containers {
      assert HasAvailable(c.requirements, s.belts.containers[c.terminal]) <==> GoodsAt(s, c.terminal, c.requirements);
    }
  }

  /** Within its deadline and with its terminal standing, a running contract is changed if and only if its work is
      done. */
  lemma ChangedIffDone(s: State, cid: ContractId, now: nat, built: bool)
    requires cid in s.contracts && Running(s.contracts[cid])
    requires s.contracts[cid].terminal in s.belts.containers && now <= s.contracts[cid].deadline
    ensures Settled(s, cid, now, built) != s <==> WorkDone(s, s.contracts[cid], built)
  {
    WhatSettlingDoes(s, cid, now, built);
    if WorkDone(s, s.contracts[cid], built) {
      assert Settled(s, cid, now, built).contracts[cid].status != s.contracts[cid].status;
    }
  }

  // ----- a whole tick

  lemma PlacesStand(s: State, cid: ContractId, now: nat, built: set<ContractId>)
    requires cid in s.contracts
    ensures SamePlaces(s, Settled(s, cid, now, cid in built))
  {
    SettledContracts(s, cid, now, built, Settled(s, cid, now, cid in built));
  }

  /** Its work cannot be done in this tick, whatever the goods: it is open, or a build that does not stand. */
  ghost predicate Waiting(s: State, k: ContractId, now: nat, built: set<ContractId>) {
    && k in s.contracts && s.contracts[k].terminal in s.belts.containers && now <= s.contracts[k].deadline
    && (s.contracts[k].status == Open
        || (s.contracts[k].status == Accepted && s.contracts[k].kind == Build && k !in built))
  }

  /** In whatever order the contracts come, an open contract within its deadline is as it was after the tick, and so
      is an accepted build that does not stand. */
  lemma {:induction false} WaitingIsLeftAlone(s: State, order: seq<ContractId>, now: nat, built: set<ContractId>,
                                              k: ContractId)
    requires (forall cid :: cid in order ==> cid in s.contracts) && Waiting(s, k, now, built)
    ensures SettledAll(s, order, now, built).contracts[k] == s.contracts[k]
    decreases |order|
  {
    if order != [] {
      var cid := order[0];
      var s1 := Settled(s, cid, now, cid in built);
      WhatSettlingDoes(s, cid, now, cid in built);
      SettleProgress(s, cid, now, cid in built, k);
      PlacesStand(s, cid, now, built);
      assert s1.contracts[k] == s.contracts[k];
      WaitingIsLeftAlone(s1, order[1..], now, built, k);
    }
  }

  /** Goods that are short for an accepted contract when the tick begins stay short, so it is left as it was too. */
  ghost predicate Short(s: State, k: ContractId, now: nat) {
    && k in s.contracts && s.contracts[k].terminal in s.belts.containers && now <= s.contracts[k].deadline
    && s.contracts[k].status == Accepted && s.contracts[k].kind != Build
    && !GoodsAt(s, s.contracts[k].terminal, s.contracts[k].requirements)
  }

  lemma ShortIsUntouched(s: State, cid: ContractId, now: nat, built: set<ContractId>, k: ContractId)
    requires cid in s.contracts && Short(s, k, now)
    ensures var s1 := Settled(s, cid, now, cid in built);
            k in s1.contracts && s1.contracts[k] == s.contracts[k] && SamePlaces(s, s1)
  {
    if cid == k {
      WhatSettlingDoes(s, cid, now, cid in built);
    } else {
      SettleProgress(s, cid, now, cid in built, k);
    }
    PlacesStand(s, cid, now, built);
  }

  lemma ShortOf(s: State, p: Pos, requirements: Bag, i: Item)
    requires p in s.belts.containers && i in requirements
    ensures requirements[i] > Free(s, p, i) ==> !GoodsAt(s, p, requirements)
  {
  }

  lemma ShortOfWhat(s: State, p: Pos, requirements: Bag) returns (i: Item)
    requires p in s.belts.containers && !GoodsAt(s, p, requirements)
    ensures i in requirements && requirements[i] > Free(s, p, i)
  {
    i :| i in requirements
      && requirements[i] + Count(s.belts.containers[p].reserved, i) > Count(s.belts.containers[p].inventory, i);
  }

  lemma ShortStaysShort(s: State, cid: ContractId, now: nat, built: set<ContractId>, k: ContractId)
    requires Good(s) && cid in s.contracts && Short(s, k, now)
    ensures var s1 := Settled(s, cid, now, cid in built);
            k in s1.contracts && s1.contracts[k] == s.contracts[k] && Short(s1, k, now)
  {
    var c := s.contracts[k];
    ShortIsUntouched(s, cid, now, built, k);
    var i := ShortOfWhat(s, c.terminal, c.requirements);
    FreeAfterOne(s, cid, now, built, c.terminal, i);
    ShortOf(Settled(s, cid, now, cid in built), c.terminal, c.requirements, i);
  }

  lemma {:induction false} ShortIsLeftAlone(s: State, order: seq<ContractId>, now: nat, built: set<ContractId>,
                                            k: ContractId)
    requires Good(s) && (forall cid :: cid in order ==> cid in s.contracts) && Short(s, k, now)
    ensures SettledAll(s, order, now, built).contracts[k] == s.contracts[k]
    decreases |order|
  {
    if order != [] {
      var cid := order[0];
      ShortStaysShort(s, cid, now, built, k);
      SettleSafe(s, cid, now, cid in built);
      WhatSettlingDoes(s, cid, now, cid in built);
      ShortIsLeftAlone(Settled(s, cid, now, cid in built), order[1..], now, built, k);
    }
  }

  lemma OutcomeIs(s: State, now: nat, built: set<ContractId>, k: ContractId)
    requires WellFormedAll(s) && k in s.contracts
    ensures var c := s.contracts[k];
            Outcome(s, k, now, built)
            == if Running(c) && c.deadline < now then c.(status := Failed)
               else if WorkDone(s, c, k in built) then c.(status := Completed)
               else c
  {
    assert WellFormed(s, s.contracts[k]);
    WhatSettlingDoes(s, k, now, k in built);
    SettledContracts(s, k, now, built, Settled(s, k, now, k in built));
  }

  /** Where the goods suffice for all, a tick completes exactly the contracts whose work was done when it began,
      fails exactly the running ones past their deadline, and leaves all others as they were. */
  lemma WhatTheTickDoes(s: State, order: seq<ContractId>, now: nat, built: set<ContractId>, k: ContractId)
    requires Good(s) && Uncontested(s, now, built) && Lists(order, s.contracts.Keys) && k in s.contracts
    ensures var c, c' := s.contracts[k], SettledAll(s, order, now, built).contracts[k];
            c' == if Running(c) && c.deadline < now then c.(status := Failed)
                  else if WorkDone(s, c, k in built) then c.(status := Completed)
                  else c
  {
    SettledAsDecided(s, order, now, built);
    assert Members(order) == s.contracts.Keys;
    OutcomeIs(s, now, built, k);
  }
}
