/** When the order in which the settler meets the contracts matters, and when it does not. */
module EscrowOrder {
  import opened Common
  import opened Bags
  import opened DroppedItems
  import opened Conveyor
  import opened Escrow
  import opened EscrowSafety
  import opened EscrowLifecycle
  import opened EscrowPayouts

  // ----- every count a settlement can change

  datatype Place = InHand(x: AgentId) | Owing(p: Pos, x: AgentId) | Stocked(p: Pos) | Reserved(p: Pos)

  function CountAt(s: State, l: Place, i: Item): int {
    match l
    case InHand(x) => Hand(s, x, i)
    case Owing(p, x) => if p in s.belts.containers then Debt(s, p, x, i) else 0
    case Stocked(p) => if p in s.belts.containers then Count(s.belts.containers[p].inventory, i) else 0
    case Reserved(p) => if p in s.belts.containers then Count(s.belts.containers[p].reserved, i) else 0
  }

  /** What paying `n` to an id out of terminal `p` changes at a place. */
  function Moves(present: set<AgentId>, p: Pos, to: AgentId, n: int, unreserve: bool, l: Place): int {
    match l
    case InHand(x) => if x == to && x in present then n else 0
    case Owing(q, x) => if q == p && x == to && x !in present then n else 0
    case Stocked(q) => if q == p then 0 - n else 0
    case Reserved(q) => if q == p && unreserve then 0 - n else 0
  }

  function PlanChange(present: set<AgentId>, c: Contract, plan: Plan, l: Place, i: Item): int {
    (if plan.consume then Moves(present, c.terminal, c.poster, Amount(c.requirements, i), false, l) else 0)
    + Moves(present, c.terminal, PayoutAgent(c, plan.rewardTo), Amount(c.reward, i), true, l)
    + (if plan.depositTo == Nobody then 0
       else Moves(present, c.terminal, PayoutAgent(c, plan.depositTo), Amount(c.deposit, i), true, l))
  }

  function Change(present: set<AgentId>, c: Contract, d: Decision, l: Place, i: Item): int {
    if d == Noop then 0 else PlanChange(present, c, PlanSettlement(d), l, i)
  }

  lemma PaidMovesHand(s: State, p: Pos, items: Bag, to: AgentId, unreserve: bool, x: AgentId, i: Item)
    requires p in s.belts.containers && NoDebtAt(s, p) && to != ""
    ensures Hand(Paid(s, p, items, to, unreserve), x, i)
         == Hand(s, x, i) + Moves(s.agents.Keys, p, to, Amount(items, i), unreserve, InHand(x))
  {
    PaidCredits(s, p, items, to, unreserve, x, i);
  }

  lemma PaidElsewhere(s: State, p: Pos, items: Bag, to: AgentId, unreserve: bool, q: Pos)
    requires p in s.belts.containers && q in s.belts.containers && q != p
    ensures var t := Paid(s, p, items, to, unreserve);
            q in t.belts.containers && t.belts.containers[q] == s.belts.containers[q]
  {
  }

  lemma PaidPlaces(s: State, p: Pos, items: Bag, to: AgentId, unreserve: bool)
    requires p in s.belts.containers
    ensures SamePlaces(s, Paid(s, p, items, to, unreserve))
  {
  }

  lemma PaidMovesOwing(s: State, p: Pos, items: Bag, to: AgentId, unreserve: bool, l: Place, i: Item)
    requires p in s.belts.containers && NoDebtAt(s, p) && to != "" && l.Owing?
    ensures CountAt(Paid(s, p, items, to, unreserve), l, i)
         == CountAt(s, l, i) + Moves(s.agents.Keys, p, to, Amount(items, i), unreserve, l)
  {
    if l.p == p {
      PaidCredits(s, p, items, to, unreserve, l.x, i);
    } else {
      PaidPlaces(s, p, items, to, unreserve);
      if l.p in s.belts.containers {
        PaidElsewhere(s, p, items, to, unreserve, l.p);
      }
    }
  }

  lemma PaidMovesStock(s: State, p: Pos, items: Bag, to: AgentId, unreserve: bool, l: Place, i: Item)
    requires CanPay(s, p, items, unreserve) && to != "" && (l.Stocked? || l.Reserved?)
    ensures CountAt(Paid(s, p, items, to, unreserve), l, i)
         == CountAt(s, l, i) + Moves(s.agents.Keys, p, to, Amount(items, i), unreserve, l)
  {
    PaidKeeps(s, p, items, to, unreserve);
  }

  lemma PaidMoves(s: State, p: Pos, items: Bag, to: AgentId, unreserve: bool, l: Place, i: Item)
    requires CanPay(s, p, items, unreserve) && to != ""
    ensures CountAt(Paid(s, p, items, to, unreserve), l, i)
         == CountAt(s, l, i) + Moves(s.agents.Keys, p, to, Amount(items, i), unreserve, l)
  {
    match l
    case InHand(x) => PaidMovesHand(s, p, items, to, unreserve, x, i);
    case Owing(_, _) => PaidMovesOwing(s, p, items, to, unreserve, l, i);
    case Stocked(_) => PaidMovesStock(s, p, items, to, unreserve, l, i);
    case Reserved(_) => PaidMovesStock(s, p, items, to, unreserve, l, i);
  }

  lemma SecuredCanPay(s: State, p: Pos, items: Bag, need: Item -> int, left: Item -> int)
    requires Secured(s, p, need) && forall i :: 0 <= left(i) == need(i) - Amount(items, i)
    ensures CanPay(s, p, items, true)
  {
    forall i
      ensures Amount(items, i) <= Count(s.belts.containers[p].reserved, i) <= Count(s.belts.containers[p].inventory, i)
    {
      assert 0 <= left(i) && 0 <= need(i);
    }
  }

  lemma SecuredCanConsume(s: State, p: Pos, items: Bag, need: Item -> int)
    requires Secured(s, p, need) && forall i :: Amount(items, i) <= s.belts.containers[p].Available(i)
    ensures CanPay(s, p, items, false)
  {
    forall i ensures Amount(items, i) <= Count(s.belts.containers[p].inventory, i) {
      assert 0 <= need(i) && Amount(items, i) <= s.belts.containers[p].Available(i);
    }
  }

  /** The three payments of a plan, each of which the terminal can make. */
  lemma StagesPayable(s: State, cid: ContractId, plan: Plan, s1: State, s2: State)
    requires Good(s) && cid in s.contracts && s.contracts[cid].Live()
    requires var c := s.contracts[cid];
             && c.terminal in s.belts.containers && Payable(s, c, plan)
             && s1 == (if plan.consume then Paid(s, c.terminal, c.requirements, c.poster, false) else s)
             && c.terminal in s1.belts.containers
             && s2 == Paid(s1, c.terminal, c.reward, PayoutAgent(c, plan.rewardTo), true)
    ensures var c := s.contracts[cid];
            && (plan.consume ==> CanPay(s, c.terminal, c.requirements, false))
            && CanPay(s1, c.terminal, c.reward, true)
            && (c.status == Accepted ==> CanPay(s2, c.terminal, c.deposit, true))
  {
    var c := s.contracts[cid];
    var p := c.terminal;
    StakeSecured(s, cid);
    var need := i => Stake(c, p, i);
    var left := i => Stake(c, p, i) - Amount(c.reward, i);
    if plan.consume {
      SecuredCanConsume(s, p, c.requirements, need);
      PaidKeeps(s, p, c.requirements, c.poster, false);
      ConsumeStage(s, s1, p, c.requirements, need);
    }
    SecuredCanPay(s1, p, c.reward, need, left);
    PaidKeeps(s1, p, c.reward, PayoutAgent(c, plan.rewardTo), true);
    PayStage(s1, s2, p, c.reward, need, left);
    if c.status == Accepted {
      SecuredCanPay(s2, p, c.deposit, left, i => 0);
    }
  }

  lemma StagesMove(s: State, s1: State, s2: State, s3: State, c: Contract, plan: Plan, l: Place, i: Item)
    requires c.poster != "" && PayoutAgent(c, plan.rewardTo) != ""
    requires plan.depositTo != Nobody ==> PayoutAgent(c, plan.depositTo) != ""
    requires plan.consume ==> CanPay(s, c.terminal, c.requirements, false)
    requires CanPay(s1, c.terminal, c.reward, true)
    requires plan.depositTo != Nobody ==> CanPay(s2, c.terminal, c.deposit, true)
    requires c.terminal in s.belts.containers
    requires s1 == if plan.consume then Paid(s, c.terminal, c.requirements, c.poster, false) else s
    requires s2 == Paid(s1, c.terminal, c.reward, PayoutAgent(c, plan.rewardTo), true)
    requires c.terminal in s2.belts.containers
    requires s3 == if plan.depositTo == Nobody then s2
                   else Paid(s2, c.terminal, c.deposit, PayoutAgent(c, plan.depositTo), true)
    requires s1.agents.Keys == s2.agents.Keys == s.agents.Keys
    ensures CountAt(s3, l, i) == CountAt(s, l, i) + PlanChange(s.agents.Keys, c, plan, l, i)
  {
    if plan.consume {
      PaidMoves(s, c.terminal, c.requirements, c.poster, false, l, i);
    }
    PaidMoves(s1, c.terminal, c.reward, PayoutAgent(c, plan.rewardTo), true, l, i);
    if plan.depositTo != Nobody {
      PaidMoves(s2, c.terminal, c.deposit, PayoutAgent(c, plan.depositTo), true, l, i);
    }
  }

  lemma ContractsDoNotCount(t: State, contracts: map<ContractId, Contract>, l: Place, i: Item)
    ensures CountAt(t.(contracts := contracts), l, i) == CountAt(t, l, i)
  {
  }

  lemma CarriedChanges(s: State, cid: ContractId, plan: Plan, l: Place, i: Item)
    requires Good(s) && cid in s.contracts && s.contracts[cid].Live()
    requires s.contracts[cid].terminal in s.belts.containers && Payable(s, s.contracts[cid], plan)
    ensures CountAt(Carried(s, cid, plan), l, i)
         == CountAt(s, l, i) + PlanChange(s.agents.Keys, s.contracts[cid], plan, l, i)
  {
    var c := s.contracts[cid];
    var p := c.terminal;
    assert WellFormed(s, c);
    var s1 := if plan.consume then Paid(s, p, c.requirements, c.poster, false) else s;
    PaidPlaces(s, p, c.requirements, c.poster, false);
    var s2 := Paid(s1, p, c.reward, PayoutAgent(c, plan.rewardTo), true);
    PaidPlaces(s1, p, c.reward, PayoutAgent(c, plan.rewardTo), true);
    var s3 := if plan.depositTo == Nobody then s2 else Paid(s2, p, c.deposit, PayoutAgent(c, plan.depositTo), true);
    StagesPayable(s, cid, plan, s1, s2);
    StagesMove(s, s1, s2, s3, c, plan, l, i);
    ContractsDoNotCount(s3, s.contracts[cid := c.(status := plan.status)], l, i);
  }

  /** What settling one contract changes depends on nothing but the contract, who is present, and the
      decision. */
  lemma SettleChanges(s: State, cid: ContractId, now: nat, built: bool, l: Place, i: Item)
    requires Good(s) && cid in s.contracts
    ensures CountAt(Settled(s, cid, now, built), l, i)
         == CountAt(s, l, i) + Change(s.agents.Keys, s.contracts[cid], DecisionFor(s, cid, now, built), l, i)
  {
    var d := DecisionFor(s, cid, now, built);
    if d != Noop {
      assert WellFormed(s, s.contracts[cid]);
      DecidedIsPayable(s, cid, now, built);
      CarriedChanges(s, cid, PlanSettlement(d), l, i);
    }
  }

  // ----- what the contracts draw from the free stock

  function Decided(s: State, cid: ContractId, now: nat, built: set<ContractId>): Decision
    requires cid in s.contracts
  {
    DecisionFor(s, cid, now, cid in built)
  }

  function Free(s: State, p: Pos, i: Item): int {
    CountAt(s, Stocked(p), i) - CountAt(s, Reserved(p), i)
  }

  function DrawOf(c: Contract, d: Decision, p: Pos, i: Item): nat {
    if d == CompleteDeliver && c.terminal == p then Amount(c.requirements, i) else 0
  }

  /** Only delivered goods come out of the free stock. */
  lemma FreeChange(present: set<AgentId>, c: Contract, d: Decision, p: Pos, i: Item)
    requires d != FailMissingTarget
    ensures Change(present, c, d, Stocked(p), i) - Change(present, c, d, Reserved(p), i) == 0 - DrawOf(c, d, p, i)
  {
  }

  /** What the contracts in `done` draw, as decided before the tick. */
  ghost function Draws(s: State, done: set<ContractId>, now: nat, built: set<ContractId>, p: Pos, i: Item)
    : map<ContractId, int>
  {
    map cid | cid in s.contracts && cid in done :: DrawOf(s.contracts[cid], Decided(s, cid, now, built), p, i)
  }

  /** The goods suffice at one place for one item. */
  ghost predicate Suffices(s: State, now: nat, built: set<ContractId>, p: Pos, i: Item) {
    SumMap(Draws(s, s.contracts.Keys, now, built, p, i)) <= Free(s, p, i)
  }

  /** The goods that every deliverable contract wants together are there: no two compete. */
  ghost predicate Uncontested(s: State, now: nat, built: set<ContractId>) {
    forall p, i :: p in s.belts.containers ==> Suffices(s, now, built, p, i)
  }

  ghost function Changes(s: State, done: set<ContractId>, now: nat, built: set<ContractId>, l: Place, i: Item)
    : map<ContractId, int>
  {
    map cid | cid in s.contracts && cid in done ::
      Change(s.agents.Keys, s.contracts[cid], Decided(s, cid, now, built), l, i)
  }

  function Outcome(s: State, cid: ContractId, now: nat, built: set<ContractId>): Contract
    requires cid in s.contracts
  {
    var d := Decided(s, cid, now, built);
    if d == Noop then s.contracts[cid] else s.contracts[cid].(status := PlanSettlement(d).status)
  }

  ghost predicate ContractsAsDecided(s: State, t: State, done: set<ContractId>, now: nat, built: set<ContractId>) {
    && t.contracts.Keys == s.contracts.Keys
    && forall cid :: cid in s.contracts ==>
         t.contracts[cid] == if cid in done then Outcome(s, cid, now, built) else s.contracts[cid]
  }

  ghost predicate CountAsDecided(s: State, t: State, done: set<ContractId>, now: nat, built: set<ContractId>,
                                 l: Place, i: Item)
  {
    CountAt(t, l, i) == CountAt(s, l, i) + SumMap(Changes(s, done, now, built, l, i))
  }

  /** `t` is `s` with the contracts in `done` settled as they would have been decided in `s`. */
  ghost predicate AsDecided(s: State, t: State, done: set<ContractId>, now: nat, built: set<ContractId>) {
    && SamePlaces(s, t) && ContractsAsDecided(s, t, done, now, built)
    && forall l, i :: CountAsDecided(s, t, done, now, built, l, i)
  }

  // ----- sums

  lemma {:induction false} SumDifference<K(!new)>(a: map<K, int>, b: map<K, int>, d: map<K, int>)
    requires a.Keys == b.Keys == d.Keys && forall k :: k in a ==> a[k] - b[k] == 0 - d[k]
    ensures SumMap(a) - SumMap(b) == 0 - SumMap(d)
    decreases |a|
  {
    if a == map[] {
      assert b == map[] && d == map[];
    } else {
      var k :| k in a;
      SumRemove(a, k);
      SumRemove(b, k);
      SumRemove(d, k);
      SumDifference(a - {k}, b - {k}, d - {k});
    }
  }

  lemma {:induction false} SumBelow<K(!new)>(a: map<K, int>, b: map<K, int>)
    requires a.Keys <= b.Keys && (forall k :: k in b ==> b[k] >= 0) && forall k :: k in a ==> a[k] <= b[k]
    ensures SumMap(a) <= SumMap(b)
    decreases |a|
  {
    if a == map[] {
      SumNonNegative(b);
    } else {
      var k :| k in a;
      SumRemove(a, k);
      SumRemove(b, k);
      SumBelow(a - {k}, b - {k});
    }
  }

  // ----- without competition every decision stands

  lemma DecidedHasTerminal(s: State, cid: ContractId, now: nat, built: set<ContractId>)
    requires WellFormedAll(s) && cid in s.contracts
    ensures Decided(s, cid, now, built) != FailMissingTarget
  {
    assert WellFormed(s, s.contracts[cid]);
  }

  lemma FreeAsDecided(s: State, t: State, done: set<ContractId>, now: nat, built: set<ContractId>, p: Pos, i: Item)
    requires WellFormedAll(s)
    requires CountAsDecided(s, t, done, now, built, Stocked(p), i)
    requires CountAsDecided(s, t, done, now, built, Reserved(p), i)
    ensures Free(t, p, i) == Free(s, p, i) - SumMap(Draws(s, done, now, built, p, i))
  {
    var stock, kept := Changes(s, done, now, built, Stocked(p), i), Changes(s, done, now, built, Reserved(p), i);
    var drawn := Draws(s, done, now, built, p, i);
    forall cid | cid in stock ensures stock[cid] - kept[cid] == 0 - drawn[cid] {
      DecidedHasTerminal(s, cid, now, built);
      FreeChange(s.agents.Keys, s.contracts[cid], Decided(s, cid, now, built), p, i);
    }
    SumDifference(stock, kept, drawn);
  }

  /** Free stock only falls, and what `cid` draws is still there. */
  lemma FreeStillThere(s: State, t: State, done: set<ContractId>, now: nat, built: set<ContractId>, cid: ContractId,
                       p: Pos, i: Item)
    requires cid in s.contracts && cid !in done && Suffices(s, now, built, p, i)
    requires Free(t, p, i) == Free(s, p, i) - SumMap(Draws(s, done, now, built, p, i))
    ensures Free(t, p, i) <= Free(s, p, i)
    ensures DrawOf(s.contracts[cid], Decided(s, cid, now, built), p, i) <= Free(t, p, i)
  {
    var drawn, all := Draws(s, done, now, built, p, i), Draws(s, s.contracts.Keys, now, built, p, i);
    var mine := DrawOf(s.contracts[cid], Decided(s, cid, now, built), p, i);
    SumNonNegative(drawn);
    SumSet(drawn, cid, mine);
    SumBelow(drawn[cid := mine], all);
  }

  lemma StillFree(s: State, t: State, done: set<ContractId>, now: nat, built: set<ContractId>, cid: ContractId, i: Item)
    requires Good(s) && AsDecided(s, t, done, now, built) && Uncontested(s, now, built)
    requires cid in s.contracts && cid !in done && s.contracts[cid].terminal in s.belts.containers
    ensures var p := s.contracts[cid].terminal;
            && Free(t, p, i) <= Free(s, p, i)
            && DrawOf(s.contracts[cid], Decided(s, cid, now, built), p, i) <= Free(t, p, i)
  {
    var p := s.contracts[cid].terminal;
    assert CountAsDecided(s, t, done, now, built, Stocked(p), i);
    assert CountAsDecided(s, t, done, now, built, Reserved(p), i);
    FreeAsDecided(s, t, done, now, built, p, i);
    assert Suffices(s, now, built, p, i);
    FreeStillThere(s, t, done, now, built, cid, p, i);
  }

  lemma ReadyStaysReady(s: State, t: State, c: Contract, d: Decision)
    requires c.terminal in s.belts.containers && c.terminal in t.belts.containers && Positive(c.requirements)
    requires forall i :: Free(t, c.terminal, i) <= Free(s, c.terminal, i)
    requires forall i :: DrawOf(c, d, c.terminal, i) <= Free(t, c.terminal, i)
    ensures HasAvailable(c.requirements, t.belts.containers[c.terminal]) ==>
              HasAvailable(c.requirements, s.belts.containers[c.terminal])
    ensures d == CompleteDeliver ==> HasAvailable(c.requirements, t.belts.containers[c.terminal])
  {
    forall i | i in c.requirements
      ensures t.belts.containers[c.terminal].Available(i) <= s.belts.containers[c.terminal].Available(i)
      ensures d == CompleteDeliver ==> c.requirements[i] <= t.belts.containers[c.terminal].Available(i)
    {
      assert Free(t, c.terminal, i) <= Free(s, c.terminal, i);
      assert DrawOf(c, d, c.terminal, i) <= Free(t, c.terminal, i);
    }
  }

  lemma SameDecision(s: State, t: State, done: set<ContractId>, now: nat, built: set<ContractId>, cid: ContractId)
    requires Good(s) && AsDecided(s, t, done, now, built) && Uncontested(s, now, built)
    requires cid in s.contracts && cid !in done
    ensures cid in t.contracts && Decided(t, cid, now, built) == Decided(s, cid, now, built)
  {
    var c, d := s.contracts[cid], Decided(s, cid, now, built);
    assert WellFormed(s, c);
    if c.terminal in s.belts.containers {
      forall i
        ensures Free(t, c.terminal, i) <= Free(s, c.terminal, i)
                  && DrawOf(c, d, c.terminal, i) <= Free(t, c.terminal, i)
      {
        StillFree(s, t, done, now, built, cid, i);
      }
      ReadyStaysReady(s, t, c, d);
    }
  }

  lemma ChangesMore(s: State, done: set<ContractId>, now: nat, built: set<ContractId>, cid: ContractId, l: Place,
                    i: Item)
    requires cid in s.contracts && cid !in done
    ensures SumMap(Changes(s, done + {cid}, now, built, l, i))
         == SumMap(Changes(s, done, now, built, l, i))
            + Change(s.agents.Keys, s.contracts[cid], Decided(s, cid, now, built), l, i)
  {
    var change := Change(s.agents.Keys, s.contracts[cid], Decided(s, cid, now, built), l, i);
    assert Changes(s, done + {cid}, now, built, l, i) == Changes(s, done, now, built, l, i)[cid := change];
    SumSet(Changes(s, done, now, built, l, i), cid, change);
  }

  lemma CarriedContracts(t: State, cid: ContractId, plan: Plan)
    requires cid in t.contracts && t.contracts[cid].terminal in t.belts.containers
    ensures var u := Carried(t, cid, plan);
            u.contracts == t.contracts[cid := t.contracts[cid].(status := plan.status)] && SamePlaces(t, u)
  {
    var c := t.contracts[cid];
    var p := c.terminal;
    var s1 := if plan.consume then Paid(t, p, c.requirements, c.poster, false) else t;
    PaidPlaces(t, p, c.requirements, c.poster, false);
    PaidPlaces(s1, p, c.reward, PayoutAgent(c, plan.rewardTo), true);
    PaidPlaces(Paid(s1, p, c.reward, PayoutAgent(c, plan.rewardTo), true), p, c.deposit,
               PayoutAgent(c, plan.depositTo), true);
  }

  lemma SettledContracts(t: State, cid: ContractId, now: nat, built: set<ContractId>, u: State)
    requires cid in t.contracts && u == Settled(t, cid, now, cid in built)
    ensures u.contracts == t.contracts[cid := Outcome(t, cid, now, built)] && SamePlaces(t, u)
  {
    var d := Decided(t, cid, now, built);
    if d == Noop {
      assert t.contracts[cid := t.contracts[cid]] == t.contracts;
    } else if d != FailMissingTarget {
      CarriedContracts(t, cid, PlanSettlement(d));
    }
  }

  lemma CountMore(s: State, t: State, done: set<ContractId>, now: nat, built: set<ContractId>, cid: ContractId,
                        l: Place, i: Item)
    requires Good(t) && cid in s.contracts && cid !in done && cid in t.contracts
    requires t.contracts[cid] == s.contracts[cid] && t.agents.Keys == s.agents.Keys
    requires Decided(t, cid, now, built) == Decided(s, cid, now, built)
    requires CountAsDecided(s, t, done, now, built, l, i)
    ensures CountAsDecided(s, Settled(t, cid, now, cid in built), done + {cid}, now, built, l, i)
  {
    SettleChanges(t, cid, now, cid in built, l, i);
    ChangesMore(s, done, now, built, cid, l, i);
  }

  lemma ContractsMore(s: State, t: State, done: set<ContractId>, now: nat, built: set<ContractId>, cid: ContractId,
                      u: State)
    requires SamePlaces(s, t) && ContractsAsDecided(s, t, done, now, built)
    requires cid in s.contracts && cid !in done && u == Settled(t, cid, now, cid in built)
    requires Decided(t, cid, now, built) == Decided(s, cid, now, built)
    ensures SamePlaces(s, u) && ContractsAsDecided(s, u, done + {cid}, now, built)
  {
    SettledContracts(t, cid, now, built, u);
  }

  lemma StepAsDecided(s: State, t: State, done: set<ContractId>, now: nat, built: set<ContractId>, cid: ContractId,
                      u: State)
    requires Good(t) && AsDecided(s, t, done, now, built) && cid in s.contracts && cid !in done
    requires Decided(t, cid, now, built) == Decided(s, cid, now, built)
    requires u == Settled(t, cid, now, cid in built)
    ensures AsDecided(s, u, done + {cid}, now, built)
  {
    ContractsMore(s, t, done, now, built, cid, u);
    forall l, i ensures CountAsDecided(s, u, done + {cid}, now, built, l, i) {
      CountMore(s, t, done, now, built, cid, l, i);
    }
  }

  lemma NothingDone(s: State, now: nat, built: set<ContractId>)
    ensures AsDecided(s, s, {}, now, built)
  {
    forall l, i ensures CountAsDecided(s, s, {}, now, built, l, i) {
      assert Changes(s, {}, now, built, l, i) == map[];
    }
  }

  function Members(order: seq<ContractId>): set<ContractId> {
    set cid | cid in order
  }

  lemma LastAsDecided(s: State, before: seq<ContractId>, cid: ContractId, now: nat, built: set<ContractId>,
                      order: seq<ContractId>)
    requires Good(s) && Uncontested(s, now, built) && order == before + [cid] && cid !in before
    requires cid in s.contracts && forall k :: k in before ==> k in s.contracts
    requires AsDecided(s, SettledAll(s, before, now, built), Members(before), now, built)
    ensures AsDecided(s, SettledAll(s, order, now, built), Members(order), now, built)
  {
    SettleAllSafe(s, before, now, built);
    SettleLast(s, before, now, built, cid);
    SameDecision(s, SettledAll(s, before, now, built), Members(before), now, built, cid);
    StepAsDecided(s, SettledAll(s, before, now, built), Members(before), now, built, cid,
                  SettledAll(s, order, now, built));
    assert Members(order) == Members(before) + {cid};
  }

  lemma {:induction false} SettledAsDecided(s: State, order: seq<ContractId>, now: nat, built: set<ContractId>)
    requires Good(s) && Uncontested(s, now, built) && forall cid :: cid in order ==> cid in s.contracts
    requires forall j, k :: 0 <= j < k < |order| ==> order[j] != order[k]
    ensures AsDecided(s, SettledAll(s, order, now, built), Members(order), now, built)
    decreases |order|
  {
    if order == [] {
      NothingDone(s, now, built);
    } else {
      var before, cid := order[..|order| - 1], order[|order| - 1];
      assert order == before + [cid];
      SettledAsDecided(s, before, now, built);
      LastAsDecided(s, before, cid, now, built, order);
    }
  }

  // ----- with competition somebody goes without

  function Drawn(c: Contract, c': Contract, p: Pos, i: Item): nat {
    if c.status == Accepted && c'.status == Completed && c.kind != Build && c.terminal == p
    then Amount(c.requirements, i) else 0
  }

  /** What the contracts completed between `s` and `t` took. */
  ghost function Taken(s: State, t: State, p: Pos, i: Item): map<ContractId, int> {
    map cid | cid in s.contracts && cid in t.contracts :: Drawn(s.contracts[cid], t.contracts[cid], p, i)
  }

  lemma TakenMore(s: State, t: State, cid: ContractId, now: nat, built: set<ContractId>, u: State, p: Pos, i: Item)
    requires cid in s.contracts && cid in t.contracts && t.contracts[cid] == s.contracts[cid]
    requires u == Settled(t, cid, now, cid in built)
    ensures SumMap(Taken(s, u, p, i))
         == SumMap(Taken(s, t, p, i)) + DrawOf(t.contracts[cid], Decided(t, cid, now, built), p, i)
  {
    SettledContracts(t, cid, now, built, u);
    var mine := DrawOf(t.contracts[cid], Decided(t, cid, now, built), p, i);
    assert Taken(s, u, p, i) == Taken(s, t, p, i)[cid := mine];
    SumSet(Taken(s, t, p, i), cid, mine);
  }

  lemma FreeAfterOne(t: State, cid: ContractId, now: nat, built: set<ContractId>, p: Pos, i: Item)
    requires Good(t) && cid in t.contracts
    ensures Free(Settled(t, cid, now, cid in built), p, i)
         == Free(t, p, i) - DrawOf(t.contracts[cid], Decided(t, cid, now, built), p, i)
  {
    assert WellFormed(t, t.contracts[cid]);
    SettleChanges(t, cid, now, cid in built, Stocked(p), i);
    SettleChanges(t, cid, now, cid in built, Reserved(p), i);
    FreeChange(t.agents.Keys, t.contracts[cid], Decided(t, cid, now, built), p, i);
  }

  /** In any order, the free stock falls by exactly what the completed contracts took. */
  lemma {:induction false} Accounted(s: State, order: seq<ContractId>, now: nat, built: set<ContractId>, p: Pos,
                                     i: Item)
    requires Good(s) && forall cid :: cid in order ==> cid in s.contracts
    requires forall j, k :: 0 <= j < k < |order| ==> order[j] != order[k]
    ensures var t := SettledAll(s, order, now, built); Free(t, p, i) == Free(s, p, i) - SumMap(Taken(s, t, p, i))
    decreases |order|
  {
    if order == [] {
      SumZero(Taken(s, s, p, i));
    } else {
      var n := |order| - 1;
      var before, cid := order[..n], order[n];
      assert order == before + [cid];
      var t, u := SettledAll(s, before, now, built), SettledAll(s, order, now, built);
      Accounted(s, before, now, built, p, i);
      SettleAllSafe(s, before, now, built);
      SettleLast(s, before, now, built, cid);
      SettleAllProgress(s, before, now, built, cid);
      TakenMore(s, t, cid, now, built, u, p, i);
      FreeAfterOne(t, cid, now, built, p, i);
    }
  }

  lemma FreeNonNegative(t: State, p: Pos, i: Item)
    requires Sound(t.belts)
    ensures 0 <= Free(t, p, i)
  {
    if p in t.belts.containers {
      assert Covered(t.belts.containers[p]);
    }
  }

  lemma NeverOverdrawn(s: State, order: seq<ContractId>, now: nat, built: set<ContractId>, p: Pos, i: Item)
    requires Good(s) && Lists(order, s.contracts.Keys)
    ensures SumMap(Taken(s, SettledAll(s, order, now, built), p, i)) <= Free(s, p, i)
  {
    Accounted(s, order, now, built, p, i);
    SettleAllSafe(s, order, now, built);
    FreeNonNegative(SettledAll(s, order, now, built), p, i);
  }

  lemma SomeLess<K(!new)>(wanted: map<K, int>, taken: map<K, int>) returns (k: K)
    requires wanted.Keys <= taken.Keys && (forall k :: k in taken ==> taken[k] >= 0)
    requires SumMap(wanted) > SumMap(taken)
    ensures k in wanted && wanted[k] > taken[k]
  {
    if forall k :: k in wanted ==> wanted[k] <= taken[k] {
      SumBelow(wanted, taken);
      assert false;
    }
    k :| k in wanted && wanted[k] > taken[k];
  }

  lemma KeysKept(s: State, order: seq<ContractId>, now: nat, built: set<ContractId>)
    requires forall cid :: cid in order ==> cid in s.contracts
    ensures SettledAll(s, order, now, built).contracts.Keys == s.contracts.Keys
  {
  }

  lemma WentWithout(s: State, t: State, cid: ContractId, now: nat, built: set<ContractId>, p: Pos, i: Item)
    requires cid in s.contracts && cid in t.contracts
    requires DrawOf(s.contracts[cid], Decided(s, cid, now, built), p, i)
             > Drawn(s.contracts[cid], t.contracts[cid], p, i)
    ensures Decided(s, cid, now, built) == CompleteDeliver && t.contracts[cid].status != Completed
  {
  }

  /** Where the goods do not suffice for all, every order leaves out a contract that could have completed. */
  lemma SomebodyGoesWithout(s: State, order: seq<ContractId>, now: nat, built: set<ContractId>, p: Pos, i: Item)
    returns (cid: ContractId)
    requires Good(s) && Lists(order, s.contracts.Keys)
    requires !Suffices(s, now, built, p, i)
    ensures cid in s.contracts && Decided(s, cid, now, built) == CompleteDeliver
    ensures SettledAll(s, order, now, built).contracts[cid].status != Completed
  {
    var t := SettledAll(s, order, now, built);
    NeverOverdrawn(s, order, now, built, p, i);
    KeysKept(s, order, now, built);
    cid := SomeLess(Draws(s, s.contracts.Keys, now, built, p, i), Taken(s, t, p, i));
    WentWithout(s, t, cid, now, built, p, i);
  }

  lemma {:induction false} Listing<T(!new)>(s: set<T>) returns (order: seq<T>)
    ensures Lists(order, s)
    decreases s
  {
    if s == {} {
      order := [];
    } else {
      var x :| x in s;
      order := Listing(s - {x});
      ListsMore(order, s - {x}, x);
      assert s - {x} + {x} == s;
      order := order + [x];
    }
  }

  lemma PutFirst(s: set<ContractId>, cid: ContractId) returns (order: seq<ContractId>)
    requires cid in s
    ensures Lists(order, s) && order[0] == cid
  {
    var rest := Listing(s - {cid});
    order := [cid] + rest;
    forall x ensures x in order <==> x in s {
      assert x in order <==> x == cid || x in rest;
    }
    forall j, k | 0 <= j < k < |order| ensures order[j] != order[k] {
      assert order[k] == rest[k - 1] && rest[k - 1] in rest;
      assert j > 0 ==> order[j] == rest[j - 1];
    }
  }

  /** A contract that could complete does so when it comes first. */
  lemma FirstCompletes(s: State, order: seq<ContractId>, now: nat, built: set<ContractId>)
    requires Lists(order, s.contracts.Keys) && order != [] && order[0] in s.contracts
    requires Decided(s, order[0], now, built) == CompleteDeliver
    ensures SettledAll(s, order, now, built).contracts[order[0]].status == Completed
  {
    var cid := order[0];
    var s1 := Settled(s, cid, now, cid in built);
    SettledContracts(s, cid, now, built, s1);
    assert order == [cid] + order[1..];
    assert cid !in order[1..];
    SettleAllProgress(s1, order[1..], now, built, cid);
  }

  // ----- the theorem

  /** The same contracts and the same counts everywhere. */
  ghost predicate Agree(t: State, u: State) {
    t.contracts == u.contracts && SamePlaces(t, u) && forall l, i :: CountAt(t, l, i) == CountAt(u, l, i)
  }

  ghost predicate OrdersAgree(s: State, now: nat, built: set<ContractId>) {
    forall a, b :: Lists(a, s.contracts.Keys) && Lists(b, s.contracts.Keys) ==>
      Agree(SettledAll(s, a, now, built), SettledAll(s, b, now, built))
  }

  lemma SameDecisionsAgree(s: State, all: set<ContractId>, now: nat, built: set<ContractId>, t: State, u: State)
    requires AsDecided(s, t, all, now, built) && AsDecided(s, u, all, now, built)
    ensures Agree(t, u)
  {
    forall l, i ensures CountAt(t, l, i) == CountAt(u, l, i) {
      assert CountAsDecided(s, t, all, now, built, l, i) && CountAsDecided(s, u, all, now, built, l, i);
    }
  }

  lemma UncontestedAgrees(s: State, now: nat, built: set<ContractId>, a: seq<ContractId>, b: seq<ContractId>)
    requires Good(s) && Uncontested(s, now, built) && Lists(a, s.contracts.Keys) && Lists(b, s.contracts.Keys)
    ensures Agree(SettledAll(s, a, now, built), SettledAll(s, b, now, built))
  {
    SettledAsDecided(s, a, now, built);
    SettledAsDecided(s, b, now, built);
    assert Members(a) == s.contracts.Keys && Members(b) == s.contracts.Keys;
    SameDecisionsAgree(s, s.contracts.Keys, now, built, SettledAll(s, a, now, built), SettledAll(s, b, now, built));
  }

  lemma ContestedDisagrees(s: State, now: nat, built: set<ContractId>, p: Pos, i: Item)
    requires Good(s) && !Suffices(s, now, built, p, i)
    ensures !OrdersAgree(s, now, built)
  {
    var a := Listing(s.contracts.Keys);
    var cid := SomebodyGoesWithout(s, a, now, built, p, i);
    var b := PutFirst(s.contracts.Keys, cid);
    FirstCompletes(s, b, now, built);
    assert !Agree(SettledAll(s, a, now, built), SettledAll(s, b, now, built));
  }

  /** The order of the walk is immaterial if and only if the goods suffice for every contract that could be
      delivered when the tick begins; which order is taken decides who is served otherwise. */
  lemma OrderMattersIffContested(s: State, now: nat, built: set<ContractId>)
    requires Good(s)
    ensures OrdersAgree(s, now, built) <==> Uncontested(s, now, built)
  {
    if Uncontested(s, now, built) {
      forall a, b | Lists(a, s.contracts.Keys) && Lists(b, s.contracts.Keys)
        ensures Agree(SettledAll(s, a, now, built), SettledAll(s, b, now, built))
      {
        UncontestedAgrees(s, now, built, a, b);
      }
    } else {
      var p, i :| p in s.belts.containers && !Suffices(s, now, built, p, i);
      ContestedDisagrees(s, now, built, p, i);
    }
  }

  // ----- and it does matter

  const TERMINAL := Pos(0, 0, 0)

  /** A delivery of one "G" for one "R", accepted by `acceptor`. */
  function Delivery(acceptor: AgentId): Contract {
    Contract(TERMINAL, "P", acceptor, Deliver, map["G" := 1], map["R" := 1], map[], 10, Accepted)
  }

  /** Two such deliveries and a single "G". */
  function Contest(): State {
    State(map["A" := Agent(TERMINAL, map[]), "B" := Agent(TERMINAL, map[]), "P" := Agent(TERMINAL, map[])],
          Belts(map[TERMINAL := Container(CONTRACT_TERMINAL, map["G" := 1, "R" := 2], map["R" := 2], map[])],
                Store(map[], map[], 0)),
          map[1 := Delivery("A"), 2 := Delivery("B")], 2)
  }

  lemma SumTwo(m: map<ContractId, int>, a: int, b: int)
    requires m == map[1 := a, 2 := b]
    ensures SumMap(m) == a + b
  {
    SumRemove(m, 1);
    SumRemove(m - {1}, 2);
    assert m - {1} - {2} == map[];
  }

  lemma ContestIsSolvent()
    ensures Solvent(Contest())
  {
    var s := Contest();
    forall p, i | p in s.belts.containers
      ensures Count(s.belts.containers[p].reserved, i) == Escrowed(s.contracts, p, i)
    {
      var stake := Amount(map["R" := 1], i);
      assert Stakes(s.contracts, p, i) == map[1 := stake, 2 := stake];
      SumTwo(Stakes(s.contracts, p, i), stake, stake);
    }
  }

  lemma ContestIsGood()
    ensures Good(Contest())
  {
    ContestIsSolvent();
    assert Covered(Contest().belts.containers[TERMINAL]);
  }

  lemma DeliveryDraws(c: Contract, held: Container, acceptor: AgentId)
    requires c == Delivery(acceptor) && held.Available("G") == 1
    ensures DecideTick(c, 0, true, HasAvailable(c.requirements, held), false) == CompleteDeliver
    ensures DrawOf(c, CompleteDeliver, TERMINAL, "G") == 1
  {
  }

  lemma ContestantDraws(cid: ContractId)
    requires cid == 1 || cid == 2
    ensures DrawOf(Contest().contracts[cid], Decided(Contest(), cid, 0, {}), TERMINAL, "G") == 1
  {
    var held := Contest().belts.containers[TERMINAL];
    assert held.Available("G") == 1;
    DeliveryDraws(Contest().contracts[cid], held, if cid == 1 then "A" else "B");
  }

  lemma ContestIsContested()
    ensures !Suffices(Contest(), 0, {}, TERMINAL, "G")
  {
    var s := Contest();
    ContestantDraws(1);
    ContestantDraws(2);
    var drawn := Draws(s, s.contracts.Keys, 0, {}, TERMINAL, "G");
    assert drawn[1] == 1 && drawn[2] == 1;
    SumTwo(drawn, 1, 1);
  }

  /** In a good state two deliveries can want the same goods, and then the walk order decides who is served. */
  lemma TheOrderCanMatter()
    ensures exists s, now, built :: Good(s) && !OrdersAgree(s, now, built)
  {
    ContestIsGood();
    ContestIsContested();
    ContestedDisagrees(Contest(), 0, {}, TERMINAL, "G");
  }
}
