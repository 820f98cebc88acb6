/** Solvency and conservation of the contract escrow, step by step and over whole runs. */
module EscrowSafety {
  import opened Common
  import opened Bags
  import opened DroppedItems
  import opened Conveyor
  import opened Escrow

  // ----- sums under one update

  lemma PurseSet(agents: map<AgentId, Agent>, a: AgentId, v: Agent, i: Item)
    requires a in agents
    ensures SumMap(Purses(agents[a := v], i))
         == SumMap(Purses(agents, i)) - Count(agents[a].inventory, i) + Count(v.inventory, i)
  {
    assert Purses(agents[a := v], i) == Purses(agents, i)[a := Count(v.inventory, i)];
    SumSet(Purses(agents, i), a, Count(v.inventory, i));
  }

  lemma OwedSet(owed: map<AgentId, Bag>, a: AgentId, v: Bag, i: Item)
    ensures OwedTotal(owed[a := v], i) == OwedTotal(owed, i) - (if a in owed then Count(owed[a], i) else 0)
              + Count(v, i)
  {
    assert OwedCounts(owed[a := v], i) == OwedCounts(owed, i)[a := Count(v, i)];
    SumSet(OwedCounts(owed, i), a, Count(v, i));
  }

  lemma OwedDrop(owed: map<AgentId, Bag>, a: AgentId, i: Item)
    ensures OwedTotal(owed - {a}, i) == OwedTotal(owed, i) - if a in owed then Count(owed[a], i) else 0
  {
    var m := OwedCounts(owed, i);
    assert OwedCounts(owed - {a}, i) == m - {a};
    if a in owed {
      SumRemove(m, a);
    } else {
      assert m - {a} == m;
    }
  }

  lemma StakeSet(contracts: map<ContractId, Contract>, cid: ContractId, c: Contract, p: Pos, i: Item)
    ensures Escrowed(contracts[cid := c], p, i)
         == Escrowed(contracts, p, i) - (if cid in contracts then Stake(contracts[cid], p, i) else 0) + Stake(c, p, i)
  {
    assert Stakes(contracts[cid := c], p, i) == Stakes(contracts, p, i)[cid := Stake(c, p, i)];
    SumSet(Stakes(contracts, p, i), cid, Stake(c, p, i));
  }

  /** A live contract's stake is part of what its terminal has reserved. */
  lemma StakeReserved(s: State, cid: ContractId, i: Item)
    requires Solvent(s) && cid in s.contracts && s.contracts[cid].terminal in s.belts.containers
    ensures Stake(s.contracts[cid], s.contracts[cid].terminal, i)
         <= Count(s.belts.containers[s.contracts[cid].terminal].reserved, i)
  {
    var p := s.contracts[cid].terminal;
    SumNonNegative(Stakes(s.contracts, p, i));
    assert Stakes(s.contracts, p, i)[cid] == Stake(s.contracts[cid], p, i);
  }

  lemma ContainerSet(s: State, p: Pos, c: Container, i: Item)
    requires p in s.belts.containers
    ensures Stock(SetContainer(s, p, c).belts, i) == Stock(s.belts, i) - Holding(s.belts.containers[p], i)
              + Holding(c, i)
  {
    HoldingsAfterSet(s.belts, p, c, i);
  }

  // ----- what the two transfers do

  /** Everything a transfer at terminal `p` leaves as it was. */
  ghost predicate OnlyAt(s: State, s': State, p: Pos) {
    && p in s.belts.containers
    && s'.contracts == s.contracts && s'.next == s.next
    && s'.belts.store == s.belts.store
    && s'.belts.containers.Keys == s.belts.containers.Keys
    && (forall q :: q in s.belts.containers && q != p ==> s'.belts.containers[q] == s.belts.containers[q])
    && s'.belts.containers[p].kind == s.belts.containers[p].kind
    && s'.agents.Keys == s.agents.Keys
    && NoDebtors(s')
  }

  ghost predicate SameWealth(s: State, s': State) {
    forall i :: Wealth(s', i) == Wealth(s, i)
  }

  ghost predicate Outflow(s: State, s': State, p: Pos, items: Bag, unreserve: bool) {
    && OnlyAt(s, s', p)
    && (forall i :: Count(s'.belts.containers[p].inventory, i)
                 == Count(s.belts.containers[p].inventory, i) - Amount(items, i))
    && (forall i :: Count(s'.belts.containers[p].reserved, i)
                 == Count(s.belts.containers[p].reserved, i) - if unreserve then Amount(items, i) else 0)
    && SameWealth(s, s')
  }

  ghost predicate CanPay(s: State, p: Pos, items: Bag, unreserve: bool) {
    && p in s.belts.containers && NoDebtors(s)
    && (forall i :: Amount(items, i) <= Count(s.belts.containers[p].inventory, i))
    && (unreserve ==> forall i :: Amount(items, i) <= Count(s.belts.containers[p].reserved, i))
  }

  lemma BagFlows(b: Bag, items: Bag, i: Item)
    ensures Count(Fill(b, items), i) == Count(b, i) + Amount(items, i)
    ensures Count(Take(b, items), i) == Count(b, i) - Amount(items, i)
    ensures Amount(items, i) <= Count(b, i) ==> Count(Drain(b, items), i) == Count(b, i) - Amount(items, i)
  {
  }

  lemma BagsStayNonNegative(b: Bag, items: Bag)
    requires NonNegative(b)
    ensures NonNegative(Fill(b, items))
    ensures Covers(b, items) ==> NonNegative(Take(b, items))
  {
  }

  lemma DepositOnlyAt(s: State, who: AgentId, p: Pos, items: Bag, s': State)
    requires who in s.agents && p in s.belts.containers && NoDebtors(s)
    requires Covers(s.agents[who].inventory, items) && s' == Deposited(s, who, p, items)
    ensures OnlyAt(s, s', p)
  {
    BagsStayNonNegative(s.agents[who].inventory, items);
    assert s'.belts.containers[p].owed == s.belts.containers[p].owed;
  }

  lemma DepositWealth(s: State, who: AgentId, p: Pos, items: Bag, i: Item, s': State)
    requires who in s.agents && p in s.belts.containers && s' == Deposited(s, who, p, items)
    ensures Wealth(s', i) == Wealth(s, i)
  {
    BagFlows(s.belts.containers[p].inventory, items, i);
    BagFlows(s.agents[who].inventory, items, i);
    PurseSet(s.agents, who, s'.agents[who], i);
    ContainerSet(s, p, s'.belts.containers[p], i);
  }

  lemma DepositKeeps(s: State, who: AgentId, p: Pos, items: Bag, s': State)
    requires who in s.agents && p in s.belts.containers && NoDebtors(s)
    requires Covers(s.agents[who].inventory, items) && s' == Deposited(s, who, p, items)
    ensures OnlyAt(s, s', p) && SameWealth(s, s')
    ensures forall i :: Count(s'.belts.containers[p].inventory, i)
                     == Count(s.belts.containers[p].inventory, i) + Amount(items, i)
    ensures forall i :: Count(s'.belts.containers[p].reserved, i)
                     == Count(s.belts.containers[p].reserved, i) + Amount(items, i)
  {
    DepositOnlyAt(s, who, p, items, s');
    forall i ensures Wealth(s', i) == Wealth(s, i) {
      DepositWealth(s, who, p, items, i, s');
    }
    forall i
      ensures Count(s'.belts.containers[p].inventory, i) == Count(s.belts.containers[p].inventory, i) + Amount(items, i)
      ensures Count(s'.belts.containers[p].reserved, i) == Count(s.belts.containers[p].reserved, i) + Amount(items, i)
    {
      BagFlows(s.belts.containers[p].inventory, items, i);
      BagFlows(s.belts.containers[p].reserved, items, i);
    }
  }

  lemma AddOwedKeeps(owed: map<AgentId, Bag>, id: AgentId, items: Bag, i: Item)
    ensures OwedTotal(AddOwed(owed, id, items), i) == OwedTotal(owed, i) + Amount(items, i)
  {
    if exists k :: k in items && items[k] > 0 {
      OwedSet(owed, id, Fill(if id in owed then owed[id] else map[], items), i);
    }
  }

  lemma AddOwedNoDebt(owed: map<AgentId, Bag>, id: AgentId, items: Bag)
    requires NoDebt(owed)
    ensures NoDebt(AddOwed(owed, id, items))
  {
    BagsStayNonNegative(if id in owed then owed[id] else map[], items);
  }

  lemma PayingAgentLeavesNoDebtors(s: State, p: Pos, items: Bag, id: AgentId, unreserve: bool)
    requires p in s.belts.containers && id in s.agents && NoDebtors(s)
    ensures NoDebtors(MovedOut(s, p, items, ToAgent(id), unreserve))
  {
    BagsStayNonNegative(s.agents[id].inventory, items);
    assert MovedOut(s, p, items, ToAgent(id), unreserve).belts.containers[p].owed == s.belts.containers[p].owed;
  }

  lemma OwingAgentLeavesNoDebtors(s: State, p: Pos, items: Bag, id: AgentId, unreserve: bool)
    requires p in s.belts.containers && NoDebtors(s)
    ensures NoDebtors(MovedOut(s, p, items, ToOwed(id), unreserve))
  {
    AddOwedNoDebt(s.belts.containers[p].owed, id, items);
    assert MovedOut(s, p, items, ToOwed(id), unreserve).agents == s.agents;
  }

  lemma MoveOutNoDebtors(s: State, p: Pos, items: Bag, dest: Dest, unreserve: bool)
    requires p in s.belts.containers && (dest.ToAgent? ==> dest.id in s.agents) && NoDebtors(s)
    ensures OnlyAt(s, MovedOut(s, p, items, dest, unreserve), p)
  {
    match dest
    case ToAgent(id) => PayingAgentLeavesNoDebtors(s, p, items, id, unreserve);
    case ToOwed(id) => OwingAgentLeavesNoDebtors(s, p, items, id, unreserve);
  }

  lemma MoveOutWealth(s: State, p: Pos, items: Bag, dest: Dest, unreserve: bool, i: Item)
    requires p in s.belts.containers && (dest.ToAgent? ==> dest.id in s.agents)
    requires Amount(items, i) <= Count(s.belts.containers[p].inventory, i)
    ensures Wealth(MovedOut(s, p, items, dest, unreserve), i) == Wealth(s, i)
  {
    var s' := MovedOut(s, p, items, dest, unreserve);
    var c, c' := s.belts.containers[p], s'.belts.containers[p];
    BagFlows(c.inventory, items, i);
    ContainerSet(s, p, c', i);
    if dest.ToAgent? {
      BagFlows(s.agents[dest.id].inventory, items, i);
      PurseSet(s.agents, dest.id, s'.agents[dest.id], i);
    } else {
      AddOwedKeeps(c.owed, dest.id, items, i);
    }
  }

  lemma MoveOutKeeps(s: State, p: Pos, items: Bag, dest: Dest, unreserve: bool)
    requires CanPay(s, p, items, unreserve) && (dest.ToAgent? ==> dest.id in s.agents)
    ensures Outflow(s, MovedOut(s, p, items, dest, unreserve), p, items, unreserve)
  {
    var c := s.belts.containers[p];
    MoveOutNoDebtors(s, p, items, dest, unreserve);
    forall i ensures Count(Drain(c.inventory, items), i) == Count(c.inventory, i) - Amount(items, i)
             ensures unreserve ==> Count(Drain(c.reserved, items), i) == Count(c.reserved, i) - Amount(items, i)
             ensures Wealth(MovedOut(s, p, items, dest, unreserve), i) == Wealth(s, i)
    {
      BagFlows(c.inventory, items, i);
      BagFlows(c.reserved, items, i);
      MoveOutWealth(s, p, items, dest, unreserve, i);
    }
  }

  // ----- from flows to the invariant

  /** The reservation at the contract's terminal moved by the change of its stake. */
  ghost predicate ReservedMoved(s: State, t: State, cid: ContractId, c: Contract)
    requires c.terminal in s.belts.containers && c.terminal in t.belts.containers
  {
    forall i :: Count(t.belts.containers[c.terminal].reserved, i)
      == Count(s.belts.containers[c.terminal].reserved, i)
         - (if cid in s.contracts then Stake(s.contracts[cid], c.terminal, i) else 0) + Stake(c, c.terminal, i)
  }

  lemma SettleSolventAt(s: State, t: State, cid: ContractId, c: Contract, p: Pos, i: Item)
    requires OnlyAt(s, t, c.terminal) && p in s.belts.containers
    requires Count(s.belts.containers[p].reserved, i) == Escrowed(s.contracts, p, i)
    requires cid in s.contracts ==> s.contracts[cid].terminal == c.terminal
    requires ReservedMoved(s, t, cid, c)
    ensures Count(t.belts.containers[p].reserved, i) == Escrowed(s.contracts[cid := c], p, i)
  {
    StakeSet(s.contracts, cid, c, p, i);
  }

  lemma SettleSolvent(s: State, t: State, cid: ContractId, c: Contract, u: State)
    requires Solvent(s) && OnlyAt(s, t, c.terminal)
    requires cid in s.contracts ==> s.contracts[cid].terminal == c.terminal
    requires ReservedMoved(s, t, cid, c)
    requires u.belts == t.belts && u.contracts == s.contracts[cid := c]
    ensures Solvent(u)
  {
    forall p, i | p in u.belts.containers
      ensures Count(u.belts.containers[p].reserved, i) == Escrowed(u.contracts, p, i)
    {
      assert p in s.belts.containers;
      SettleSolventAt(s, t, cid, c, p, i);
    }
  }

  lemma SettleWellFormed(s: State, cid: ContractId, c: Contract, next: nat, u: State)
    requires WellFormedAll(s) && WellFormed(s, c) && cid <= next && s.next <= next
    requires u.contracts == s.contracts[cid := c] && u.next == next && u.agents.Keys == s.agents.Keys
    requires u.belts.containers.Keys == s.belts.containers.Keys
    ensures WellFormedAll(u)
  {
    forall k | k in u.contracts ensures k <= u.next && WellFormed(u, u.contracts[k]) {
      assert k != cid ==> k <= s.next && WellFormed(s, s.contracts[k]);
    }
  }

  /** Replacing contract `cid` by `c` keeps the invariant when the reservation at its terminal moved by
      the change of stake and stock still covers it. */
  lemma SettleBooks(s: State, t: State, cid: ContractId, c: Contract, next: nat, u: State)
    requires Good(s) && OnlyAt(s, t, c.terminal)
    requires cid <= next && s.next <= next
    requires cid in s.contracts ==> s.contracts[cid].terminal == c.terminal
    requires WellFormed(s, c) && ReservedMoved(s, t, cid, c)
    requires Covered(t.belts.containers[c.terminal])
    requires u == t.(contracts := s.contracts[cid := c], next := next)
    ensures Good(u)
  {
    SettleSolvent(s, t, cid, c, u);
    SettleWellFormed(s, cid, c, next, u);
  }

  ghost predicate Safe(s: State, s': State) {
    Good(s') && SameWealth(s, s')
  }

  lemma WealthIgnoresContracts(t: State, u: State)
    requires u.agents == t.agents && u.belts == t.belts
    ensures forall i :: Wealth(u, i) == Wealth(t, i)
  {
  }

  /** Paying `items` into a terminal and recording a contract whose stake there grew by them. */
  lemma StakeSafe(s: State, who: AgentId, items: Bag, cid: ContractId, c: Contract, next: nat, s': State)
    requires Good(s) && who in s.agents && Covers(s.agents[who].inventory, items)
    requires c.terminal in s.belts.containers && WellFormed(s, c) && cid <= next && s.next <= next
    requires cid in s.contracts ==> s.contracts[cid].terminal == c.terminal
    requires forall i :: Stake(c, c.terminal, i)
               == (if cid in s.contracts then Stake(s.contracts[cid], c.terminal, i) else 0) + Amount(items, i)
    requires s' == Deposited(s, who, c.terminal, items).(contracts := s.contracts[cid := c], next := next)
    ensures Safe(s, s')
  {
    var p := c.terminal;
    var t := Deposited(s, who, p, items);
    DepositKeeps(s, who, p, items, t);
    assert Covered(s.belts.containers[p]);
    forall i ensures 0 <= Count(t.belts.containers[p].reserved, i) <= Count(t.belts.containers[p].inventory, i) {
      assert 0 <= Count(s.belts.containers[p].reserved, i) <= Count(s.belts.containers[p].inventory, i);
    }
    SettleBooks(s, t, cid, c, next, s');
    WealthIgnoresContracts(t, s');
  }

  lemma FreshId(s: State)
    requires WellFormedAll(s)
    ensures s.next + 1 !in s.contracts
  {
  }

  lemma NewStakeSafe(s: State, who: AgentId, cid: ContractId, c: Contract, s': State)
    requires Good(s) && who in s.agents && Covers(s.agents[who].inventory, c.reward)
    requires c.terminal in s.belts.containers && WellFormed(s, c) && c.status == Open
    requires cid !in s.contracts && s.next <= cid
    requires s' == Deposited(s, who, c.terminal, c.reward).(contracts := s.contracts[cid := c], next := cid)
    ensures Safe(s, s')
  {
    StakeSafe(s, who, c.reward, cid, c, cid, s');
  }

  lemma OpenSafe(s: State, who: AgentId, c: Contract)
    requires Good(s) && who in s.agents && c.poster == who && c.status == Open && c.terminal in s.belts.containers
    requires Positive(c.requirements) && Positive(c.reward) && Positive(c.deposit)
    requires Covers(s.agents[who].inventory, c.reward)
    ensures Safe(s, Opened(s, who, c))
  {
    FreshId(s);
    assert "" !in s.agents && WellFormed(s, c);
    NewStakeSafe(s, who, s.next + 1, c, Opened(s, who, c));
  }

  lemma PostSafe(s: State, who: AgentId, r: PostRequest, now: nat, dayTicks: int)
    requires Good(s) && who in s.agents
    ensures Safe(s, Posted(s, who, r, now, dayTicks))
  {
    if PostCheck(s, who, r) == Done {
      OpenSafe(s, who, NewContract(who, r, now, dayTicks));
    }
  }

  lemma TakeUpSafe(s: State, who: AgentId, cid: ContractId, required: Bag)
    requires Good(s) && who in s.agents && cid in s.contracts && s.contracts[cid].status == Open
    requires Positive(required) && Covers(s.agents[who].inventory, required)
    requires s.contracts[cid].terminal in s.belts.containers
    ensures Safe(s, TakenUp(s, who, cid, required))
  {
    var c := s.contracts[cid];
    assert WellFormed(s, c);
    StakeSafe(s, who, required, cid, c.(deposit := required, acceptor := who, status := Accepted), s.next,
              TakenUp(s, who, cid, required));
  }

  lemma AcceptSafe(s: State, who: AgentId, cid: Option<ContractId>, at: Option<Pos>, now: nat, multiplier: int)
    requires Good(s) && who in s.agents
    ensures Safe(s, AcceptedBy(s, who, cid, at, now, multiplier))
  {
    if AcceptCheck(s, who, cid, at, now, multiplier) == Done {
      TakeUpSafe(s, who, cid.value, ScaleDeposit(s.contracts[cid.value].deposit, multiplier));
    }
  }

  /** The three transfers of a release, each known to be exact once the terminal can pay it: consuming the
      requirements when asked to, then the reward, then the deposit when it was paid in. */
  ghost predicate Released(s: State, s1: State, s2: State, s3: State, c: Contract, consume: bool) {
    && (if consume
        then CanPay(s, c.terminal, c.requirements, false) ==> Outflow(s, s1, c.terminal, c.requirements, false)
        else s1 == s)
    && (CanPay(s1, c.terminal, c.reward, true) ==> Outflow(s1, s2, c.terminal, c.reward, true))
    && (if c.status == Accepted
        then CanPay(s2, c.terminal, c.deposit, true) ==> Outflow(s2, s3, c.terminal, c.deposit, true)
        else s3 == s2)
  }

  lemma ReleaseBooks(s: State, cid: ContractId, t: State, status: Status, u: State)
    requires Good(s) && cid in s.contracts && (status == Completed || status == Failed)
    requires var c := s.contracts[cid];
             && WellFormed(s, c) && OnlyAt(s, t, c.terminal) && Covered(t.belts.containers[c.terminal])
             && forall i :: Count(t.belts.containers[c.terminal].reserved, i)
                         == Count(s.belts.containers[c.terminal].reserved, i) - Stake(c, c.terminal, i)
    requires u == t.(contracts := s.contracts[cid := s.contracts[cid].(status := status)])
    ensures Good(u)
  {
    SettleBooks(s, t, cid, s.contracts[cid].(status := status), s.next, u);
  }

  /** Terminal `p` still owes `need` out of escrow and has it, reserved and in stock. */
  ghost predicate Secured(s: State, p: Pos, need: Item -> int) {
    && p in s.belts.containers && NoDebtors(s)
    && forall i :: 0 <= need(i) <= Count(s.belts.containers[p].reserved, i) <= Count(s.belts.containers[p].inventory, i)
  }

  lemma StakeSecured(s: State, cid: ContractId)
    requires Good(s) && cid in s.contracts && s.contracts[cid].Live()
    ensures var c := s.contracts[cid];
            && WellFormed(s, c)
            && Secured(s, c.terminal, i => Stake(c, c.terminal, i))
            && (HasAvailable(c.requirements, s.belts.containers[c.terminal]) ==>
                  forall i :: Amount(c.requirements, i) <= s.belts.containers[c.terminal].Available(i))
  {
    var c := s.contracts[cid];
    var p := c.terminal;
    assert WellFormed(s, c) && Covered(s.belts.containers[p]);
    forall i
      ensures Stake(c, p, i) <= Count(s.belts.containers[p].reserved, i) <= Count(s.belts.containers[p].inventory, i)
    {
      StakeReserved(s, cid, i);
    }
    forall i ensures 0 <= s.belts.containers[p].Available(i) {
      assert Count(s.belts.containers[p].reserved, i) <= Count(s.belts.containers[p].inventory, i);
    }
  }

  lemma ConsumeStage(s: State, s': State, p: Pos, items: Bag, need: Item -> int)
    requires Secured(s, p, need) && forall i :: Amount(items, i) <= s.belts.containers[p].Available(i)
    requires CanPay(s, p, items, false) ==> Outflow(s, s', p, items, false)
    ensures Outflow(s, s', p, items, false) && Secured(s', p, need)
  {
    forall i ensures Amount(items, i) <= Count(s.belts.containers[p].inventory, i) {
      assert 0 <= need(i) <= Count(s.belts.containers[p].reserved, i);
    }
    forall i
      ensures 0 <= need(i) <= Count(s'.belts.containers[p].reserved, i) <= Count(s'.belts.containers[p].inventory, i)
    {
      assert 0 <= need(i) <= Count(s.belts.containers[p].reserved, i) <= Count(s.belts.containers[p].inventory, i);
      assert Amount(items, i) <= s.belts.containers[p].Available(i);
    }
  }

  lemma PayStage(s: State, s': State, p: Pos, items: Bag, need: Item -> int, left: Item -> int)
    requires Secured(s, p, need) && forall i :: 0 <= left(i) == need(i) - Amount(items, i)
    requires CanPay(s, p, items, true) ==> Outflow(s, s', p, items, true)
    ensures Outflow(s, s', p, items, true) && Secured(s', p, left)
  {
    forall i
      ensures Amount(items, i) <= Count(s.belts.containers[p].reserved, i)
                && Amount(items, i) <= Count(s.belts.containers[p].inventory, i)
    {
      assert 0 <= left(i);
      assert need(i) <= Count(s.belts.containers[p].reserved, i) <= Count(s.belts.containers[p].inventory, i);
    }
    forall i
      ensures 0 <= left(i) <= Count(s'.belts.containers[p].reserved, i) <= Count(s'.belts.containers[p].inventory, i)
    {
      assert need(i) <= Count(s.belts.containers[p].reserved, i) <= Count(s.belts.containers[p].inventory, i);
    }
  }

  lemma OutflowThen(s: State, t: State, u: State, p: Pos, items: Bag, unreserve: bool)
    requires OnlyAt(s, t, p) && SameWealth(s, t) && Outflow(t, u, p, items, unreserve)
    ensures OnlyAt(s, u, p) && SameWealth(s, u)
  {
    forall i ensures Wealth(u, i) == Wealth(s, i) {
      assert Wealth(t, i) == Wealth(s, i);
    }
  }

  lemma ReleaseFlows(s: State, s1: State, s2: State, s3: State, c: Contract, consume: bool)
    requires c.Live() && Secured(s, c.terminal, i => Stake(c, c.terminal, i))
    requires consume ==> forall i :: Amount(c.requirements, i) <= s.belts.containers[c.terminal].Available(i)
    requires Released(s, s1, s2, s3, c, consume)
    ensures OnlyAt(s, s3, c.terminal) && SameWealth(s, s3)
    ensures Covered(s3.belts.containers[c.terminal])
    ensures forall i :: Count(s3.belts.containers[c.terminal].reserved, i)
                     == Count(s.belts.containers[c.terminal].reserved, i) - Stake(c, c.terminal, i)
  {
    var p := c.terminal;
    var need := i => Stake(c, p, i);
    var left := i => Stake(c, p, i) - Amount(c.reward, i);
    if consume {
      ConsumeStage(s, s1, p, c.requirements, need);
    }
    PayStage(s1, s2, p, c.reward, need, left);
    OutflowThen(s, s1, s2, p, c.reward, true);
    if c.status == Accepted {
      PayStage(s2, s3, p, c.deposit, left, i => 0);
      OutflowThen(s, s2, s3, p, c.deposit, true);
    }
    forall i ensures 0 <= Count(s3.belts.containers[p].reserved, i) <= Count(s3.belts.containers[p].inventory, i) {
      assert 0 <= left(i) <= Count(s2.belts.containers[p].reserved, i) <= Count(s2.belts.containers[p].inventory, i);
    }
  }

  lemma ReleaseSafe(s: State, cid: ContractId, s1: State, s2: State, s3: State, consume: bool, status: Status, u: State)
    requires Good(s) && cid in s.contracts && s.contracts[cid].Live()
    requires status == Completed || status == Failed
    requires var c := s.contracts[cid];
             && (consume ==>
                   c.terminal in s.belts.containers && HasAvailable(c.requirements, s.belts.containers[c.terminal]))
             && Released(s, s1, s2, s3, c, consume)
    requires u == s3.(contracts := s.contracts[cid := s.contracts[cid].(status := status)])
    ensures Safe(s, u)
  {
    StakeSecured(s, cid);
    ReleaseFlows(s, s1, s2, s3, s.contracts[cid], consume);
    ReleaseBooks(s, cid, s3, status, u);
    WealthIgnoresContracts(s3, u);
  }

  lemma DeliverSafe(s: State, cid: ContractId, requirementsTo: Dest, acceptor: AgentId)
    requires Good(s) && cid in s.contracts && s.contracts[cid].status == Accepted
    requires s.contracts[cid].terminal in s.belts.containers
    requires acceptor in s.agents && (requirementsTo.ToAgent? ==> requirementsTo.id in s.agents)
    requires s.contracts[cid].kind != Build ==>
               HasAvailable(s.contracts[cid].requirements, s.belts.containers[s.contracts[cid].terminal])
    ensures Safe(s, Delivered(s, cid, requirementsTo, acceptor))
  {
    var c := s.contracts[cid];
    var p := c.terminal;
    var s1 := if c.kind == Build then s else MovedOut(s, p, c.requirements, requirementsTo, false);
    var s2 := MovedOut(s1, p, c.reward, ToAgent(acceptor), true);
    var s3 := MovedOut(s2, p, c.deposit, ToAgent(acceptor), true);
    if CanPay(s, p, c.requirements, false) {
      MoveOutKeeps(s, p, c.requirements, requirementsTo, false);
    }
    if CanPay(s1, p, c.reward, true) {
      MoveOutKeeps(s1, p, c.reward, ToAgent(acceptor), true);
    }
    if CanPay(s2, p, c.deposit, true) {
      MoveOutKeeps(s2, p, c.deposit, ToAgent(acceptor), true);
    }
    ReleaseSafe(s, cid, s1, s2, s3, c.kind != Build, Completed, Delivered(s, cid, requirementsTo, acceptor));
  }

  lemma SubmitSafe(s: State, who: AgentId, cid: Option<ContractId>, at: Option<Pos>, now: nat, built: bool)
    requires Good(s) && who in s.agents
    ensures Safe(s, Submitted(s, who, cid, at, now, built))
  {
    if SubmitCheck(s, who, cid, at, now, built) == Done {
      var c := s.contracts[cid.value];
      DeliverSafe(s, cid.value, ToOwed(c.poster), who);
    }
  }

  lemma PaidKeeps(s: State, p: Pos, items: Bag, to: AgentId, unreserve: bool)
    requires CanPay(s, p, items, unreserve) && to != ""
    ensures Outflow(s, Paid(s, p, items, to, unreserve), p, items, unreserve)
  {
    if items != map[] {
      MoveOutKeeps(s, p, items, if to in s.agents then ToAgent(to) else ToOwed(to), unreserve);
    }
  }

  /** A plan that pays the reward to somebody, and the deposit to somebody exactly when it was paid in, and
      consumes only what is available. */
  predicate Payable(s: State, c: Contract, plan: Plan)
    requires c.terminal in s.belts.containers
  {
    && (plan.status == Completed || plan.status == Failed)
    && PayoutAgent(c, plan.rewardTo) != ""
    && (if c.status == Accepted then PayoutAgent(c, plan.depositTo) != "" else plan.depositTo == Nobody)
    && (plan.consume ==> HasAvailable(c.requirements, s.belts.containers[c.terminal]))
  }

  lemma PlanReleased(s: State, c: Contract, plan: Plan, s1: State, s2: State, s3: State)
    requires c.terminal in s.belts.containers && c.poster != "" && c.Live() && Payable(s, c, plan)
    requires s1 == if plan.consume then Paid(s, c.terminal, c.requirements, c.poster, false) else s
    requires c.terminal in s1.belts.containers
    requires s2 == Paid(s1, c.terminal, c.reward, PayoutAgent(c, plan.rewardTo), true)
    requires c.terminal in s2.belts.containers
    requires s3 == if plan.depositTo == Nobody then s2
                   else Paid(s2, c.terminal, c.deposit, PayoutAgent(c, plan.depositTo), true)
    ensures Released(s, s1, s2, s3, c, plan.consume)
  {
    var p := c.terminal;
    if CanPay(s, p, c.requirements, false) {
      PaidKeeps(s, p, c.requirements, c.poster, false);
    }
    if CanPay(s1, p, c.reward, true) {
      PaidKeeps(s1, p, c.reward, PayoutAgent(c, plan.rewardTo), true);
    }
    if plan.depositTo != Nobody && CanPay(s2, p, c.deposit, true) {
      PaidKeeps(s2, p, c.deposit, PayoutAgent(c, plan.depositTo), true);
    }
  }

  /** Carrying out a payable plan is safe. */
  lemma PlanSafe(s: State, cid: ContractId, plan: Plan)
    requires Good(s) && cid in s.contracts && s.contracts[cid].Live()
    requires s.contracts[cid].terminal in s.belts.containers && Payable(s, s.contracts[cid], plan)
    ensures Safe(s, Carried(s, cid, plan))
  {
    var c := s.contracts[cid];
    var p := c.terminal;
    assert WellFormed(s, c);
    var s1 := if plan.consume then Paid(s, p, c.requirements, c.poster, false) else s;
    var s2 := Paid(s1, p, c.reward, PayoutAgent(c, plan.rewardTo), true);
    var s3 := if plan.depositTo == Nobody then s2 else Paid(s2, p, c.deposit, PayoutAgent(c, plan.depositTo), true);
    PlanReleased(s, c, plan, s1, s2, s3);
    ReleaseSafe(s, cid, s1, s2, s3, plan.consume, plan.status, Carried(s, cid, plan));
  }

  /** Whatever is decided about a live contract is payable. */
  lemma DecidedIsPayable(s: State, cid: ContractId, now: nat, built: bool)
    requires cid in s.contracts && WellFormed(s, s.contracts[cid]) && DecisionFor(s, cid, now, built) != Noop
    ensures var c, d := s.contracts[cid], DecisionFor(s, cid, now, built);
            && c.Live() && c.terminal in s.belts.containers && d != FailMissingTarget
            && Payable(s, c, PlanSettlement(d))
            && Settled(s, cid, now, built) == Carried(s, cid, PlanSettlement(d))
  {
  }

  lemma SettleSafe(s: State, cid: ContractId, now: nat, built: bool)
    requires Good(s) && cid in s.contracts
    ensures Safe(s, Settled(s, cid, now, built))
  {
    if DecisionFor(s, cid, now, built) != Noop {
      assert WellFormed(s, s.contracts[cid]);
      DecidedIsPayable(s, cid, now, built);
      PlanSafe(s, cid, PlanSettlement(DecisionFor(s, cid, now, built)));
    }
  }

  /** The settler is safe in whatever order the contracts come. */
  lemma {:induction false} SettleAllSafe(s: State, order: seq<ContractId>, now: nat, built: set<ContractId>)
    requires Good(s) && forall cid :: cid in order ==> cid in s.contracts
    ensures Safe(s, SettledAll(s, order, now, built))
    decreases |order|
  {
    if order != [] {
      var s1 := Settled(s, order[0], now, order[0] in built);
      SettleSafe(s, order[0], now, order[0] in built);
      assert s1.contracts.Keys == s.contracts.Keys;
      SettleAllSafe(s1, order[1..], now, built);
    }
  }

  lemma SoundSameStock(b: Belts, b': Belts)
    requires Sound(b) && b'.store == b.store && b'.containers.Keys == b.containers.Keys
    requires forall p :: p in b.containers ==>
               && b'.containers[p].inventory == b.containers[p].inventory
               && b'.containers[p].reserved == b.containers[p].reserved
    ensures Sound(b')
  {
    forall p | p in b'.containers ensures Covered(b'.containers[p]) {
      assert Covered(b.containers[p]);
    }
  }

  lemma CollectWealth(s: State, who: AgentId, p: Pos, i: Item)
    requires who in s.agents && p in s.belts.containers && NonNegative(OwedTo(s.belts.containers[p], who))
    ensures Wealth(Collected(s, who, p), i) == Wealth(s, i)
  {
    var s' := Collected(s, who, p);
    var c := s.belts.containers[p];
    BagFlows(s.agents[who].inventory, OwedTo(c, who), i);
    OwedDrop(c.owed, who, i);
    ContainerSet(s, p, s'.belts.containers[p], i);
    PurseSet(s.agents, who, s'.agents[who], i);
  }

  /** Changing only who is there, and inventories and debts that stay non-negative, keeps the books. */
  lemma BooksUnmoved(s: State, s': State)
    requires Good(s)
    requires s'.contracts == s.contracts && s'.next == s.next && "" !in s'.agents
    requires s'.belts.containers.Keys == s.belts.containers.Keys
    requires forall p :: p in s.belts.containers ==> s'.belts.containers[p].reserved == s.belts.containers[p].reserved
    requires Sound(s'.belts) && NoDebtors(s')
    ensures Good(s')
  {
    forall p, i | p in s'.belts.containers
      ensures Count(s'.belts.containers[p].reserved, i) == Escrowed(s'.contracts, p, i)
    {
      assert Count(s.belts.containers[p].reserved, i) == Escrowed(s.contracts, p, i);
    }
    forall cid | cid in s'.contracts ensures cid <= s'.next && WellFormed(s', s'.contracts[cid]) {
      assert WellFormed(s, s.contracts[cid]);
    }
  }

  lemma CollectNoDebtors(s: State, who: AgentId, p: Pos, s': State)
    requires who in s.agents && p in s.belts.containers && NoDebtors(s) && s' == Collected(s, who, p)
    ensures NoDebtors(s')
  {
    assert NoDebt(s.belts.containers[p].owed);
    BagsStayNonNegative(s.agents[who].inventory, OwedTo(s.belts.containers[p], who));
  }

  lemma CollectSafe(s: State, who: AgentId, p: Pos, s': State)
    requires Good(s) && who in s.agents && p in s.belts.containers && s' == Collected(s, who, p)
    ensures Safe(s, s')
  {
    assert NoDebt(s.belts.containers[p].owed);
    CollectNoDebtors(s, who, p, s');
    forall i ensures Wealth(s', i) == Wealth(s, i) {
      CollectWealth(s, who, p, i);
    }
    SoundSameStock(s.belts, s'.belts);
    BooksUnmoved(s, s');
  }

  lemma ClaimSafe(s: State, who: AgentId, at: Option<Pos>)
    requires Good(s) && who in s.agents
    ensures Safe(s, Claimed(s, who, at))
  {
    if ClaimCheck(s, who, at) == Done {
      CollectSafe(s, who, at.value, Claimed(s, who, at));
    }
  }

  lemma ConveyorSafe(s: State, g: Grid, now: nat, ids: seq<EntityId>, ps: seq<Pos>)
    requires Good(s)
    ensures Safe(s, s.(belts := Tick(g, s.belts, now, ids, ps)))
  {
    var s' := s.(belts := Tick(g, s.belts, now, ids, ps));
    TickKeeps(g, s.belts, now, ids, ps);
    BooksUnmoved(s, s');
    forall i ensures Wealth(s', i) == Wealth(s, i) {
      assert Stock(s'.belts, i) == Stock(s.belts, i);
    }
  }

  // ----- agents coming and going

  lemma DepartKeeps(s: State, who: AgentId, i: Item)
    requires Good(s)
    ensures Good(Departed(s, who))
    ensures Wealth(Departed(s, who), i) == Wealth(s, i) - Hand(s, who, i)
  {
    var s' := Departed(s, who);
    BooksUnmoved(s, s');
    assert Purses(s'.agents, i) == Purses(s.agents, i) - {who};
    if who in s.agents {
      SumRemove(Purses(s.agents, i), who);
    } else {
      assert Purses(s.agents, i) - {who} == Purses(s.agents, i);
    }
  }

  lemma ArriveKeeps(s: State, who: AgentId, at: Pos, carried: Bag, i: Item)
    requires Good(s)
    ensures Good(Arrived(s, who, at, carried))
    ensures Wealth(Arrived(s, who, at, carried), i)
         == Wealth(s, i) + if Admits(s, who) then Count(Luggage(carried), i) else 0
  {
    var s' := Arrived(s, who, at, carried);
    if Admits(s, who) {
      BooksUnmoved(s, s');
      assert Purses(s'.agents, i) == Purses(s.agents, i)[who := Count(Luggage(carried), i)];
      SumSet(Purses(s.agents, i), who, Count(Luggage(carried), i));
    }
  }

  /** Whoever goes to a world that admits it takes along what it had: both worlds stay good, and together they hold
      as much of every named item as before. */
  lemma TravelConserves(s: State, t: State, who: AgentId, at: Pos, i: Item)
    requires Good(s) && Good(t) && who in s.agents && Admits(t, who) && i != ""
    ensures var s', t' := Departed(s, who), Arrived(t, who, at, s.agents[who].inventory);
            Good(s') && Good(t') && Wealth(s', i) + Wealth(t', i) == Wealth(s, i) + Wealth(t, i)
  {
    DepartKeeps(s, who, i);
    ArriveKeeps(t, who, at, s.agents[who].inventory, i);
    assert NonNegative(s.agents[who].inventory);
  }

  // ----- whole runs

  datatype Step =
    | Walk(who: AgentId, to: Pos)
    | Post(who: AgentId, post: PostRequest, now: nat, dayTicks: int)
    | Accept(who: AgentId, cid: Option<ContractId>, at: Option<Pos>, now: nat, multiplier: int)
    | Submit(who: AgentId, cid: Option<ContractId>, at: Option<Pos>, now: nat, built: bool)
    | Claim(who: AgentId, at: Option<Pos>)
    | SettleTick(order: seq<ContractId>, now: nat, builds: set<ContractId>)
    | BeltTick(g: Grid, now: nat, ids: seq<EntityId>, ps: seq<Pos>)
    | Depart(who: AgentId)
    | Arrive(who: AgentId, place: Pos, carried: Bag)

  /** Requests come from present agents; a settler tick lists every contract once; anybody may leave or come. */
  ghost predicate Enabled(s: State, step: Step) {
    match step
    case SettleTick(order, _, _) => Lists(order, s.contracts.Keys)
    case BeltTick(_, _, _, _) => true
    case Depart(_) => true
    case Arrive(_, _, _) => true
    case _ => step.who in s.agents
  }

  ghost function After(s: State, step: Step): State
    requires Enabled(s, step)
  {
    match step
    case Walk(who, to) => s.(agents := s.agents[who := s.agents[who].(pos := to)])
    case Post(who, post, now, dayTicks) => Posted(s, who, post, now, dayTicks)
    case Accept(who, cid, at, now, multiplier) => AcceptedBy(s, who, cid, at, now, multiplier)
    case Submit(who, cid, at, now, built) => Submitted(s, who, cid, at, now, built)
    case Claim(who, at) => Claimed(s, who, at)
    case SettleTick(order, now, builds) => SettledAll(s, order, now, builds)
    case BeltTick(g, now, ids, ps) => s.(belts := Tick(g, s.belts, now, ids, ps))
    case Depart(who) => Departed(s, who)
    case Arrive(who, place, carried) => Arrived(s, who, place, carried)
  }

  /** What a step brings into the world, less what it takes out. */
  function Traffic(s: State, step: Step, i: Item): int {
    match step
    case Depart(who) => 0 - Hand(s, who, i)
    case Arrive(who, _, carried) => if Admits(s, who) then Count(Luggage(carried), i) else 0
    case _ => 0
  }

  lemma WalkSafe(s: State, who: AgentId, to: Pos, s': State)
    requires Good(s) && who in s.agents && s' == s.(agents := s.agents[who := s.agents[who].(pos := to)])
    ensures Safe(s, s')
  {
    BooksUnmoved(s, s');
    forall i ensures Wealth(s', i) == Wealth(s, i) {
      PurseSet(s.agents, who, s'.agents[who], i);
    }
  }

  /** A step other than coming and going. */
  predicate Local(step: Step) {
    !step.Depart? && !step.Arrive?
  }

  lemma LocalSafe(s: State, step: Step)
    requires Good(s) && Enabled(s, step) && Local(step)
    ensures Safe(s, After(s, step))
  {
    match step
    case Walk(who, to) => WalkSafe(s, who, to, After(s, step));
    case Post(who, post, now, dayTicks) => PostSafe(s, who, post, now, dayTicks);
    case Accept(who, cid, at, now, multiplier) => AcceptSafe(s, who, cid, at, now, multiplier);
    case Submit(who, cid, at, now, built) => SubmitSafe(s, who, cid, at, now, built);
    case Claim(who, at) => ClaimSafe(s, who, at);
    case SettleTick(order, now, builds) => SettleAllSafe(s, order, now, builds);
    case BeltTick(g, now, ids, ps) => ConveyorSafe(s, g, now, ids, ps);
  }

  lemma StepSafe(s: State, step: Step)
    requires Good(s) && Enabled(s, step)
    ensures Good(After(s, step))
    ensures forall i :: Wealth(After(s, step), i) == Wealth(s, i) + Traffic(s, step, i)
  {
    if Local(step) {
      LocalSafe(s, step);
    } else {
      forall i ensures Good(After(s, step)) && Wealth(After(s, step), i) == Wealth(s, i) + Traffic(s, step, i) {
        if step.Depart? {
          DepartKeeps(s, step.who, i);
        } else {
          ArriveKeeps(s, step.who, step.place, step.carried, i);
        }
      }
      assert Wealth(After(s, step), "") == Wealth(s, "") + Traffic(s, step, "");
    }
  }

  /** A run: consecutive states joined by enabled steps. */
  ghost predicate IsRun(states: seq<State>, steps: seq<Step>) {
    && |states| == |steps| + 1
    && forall k :: 0 <= k < |steps| ==> Enabled(states[k], steps[k]) && states[k + 1] == After(states[k], steps[k])
  }

  /** A world without contracts, with nothing reserved or owed and nobody in debt, is a good start. */
  lemma FreshWorldIsGood(s: State)
    requires s.contracts == map[] && "" !in s.agents && Indexed(s.belts.store)
    requires forall a :: a in s.agents ==> NonNegative(s.agents[a].inventory)
    requires forall p :: p in s.belts.containers ==>
               var c := s.belts.containers[p]; NonNegative(c.inventory) && c.reserved == map[] && c.owed == map[]
    ensures Good(s)
  {
    forall p, i | p in s.belts.containers ensures Escrowed(s.contracts, p, i) == 0 {
      SumZero(Stakes(s.contracts, p, i));
    }
  }

  /** What agents have brought into the world and taken out of it in the first `k` steps. */
  ghost function TotalTraffic(states: seq<State>, steps: seq<Step>, k: nat, i: Item): int
    requires k <= |steps| && k < |states|
  {
    if k == 0 then 0 else TotalTraffic(states, steps, k - 1, i) + Traffic(states[k - 1], steps[k - 1], i)
  }

  /** Over every run, with agents coming and going, the escrow stays solvent, and apart from what they bring and take
      no item is created or destroyed. */
  lemma {:induction false} RunsAreSolventAndConserve(states: seq<State>, steps: seq<Step>, k: nat)
    requires IsRun(states, steps) && Good(states[0]) && k < |states|
    ensures Good(states[k])
    ensures forall i :: Wealth(states[k], i) == Wealth(states[0], i) + TotalTraffic(states, steps, k, i)
  {
    if k > 0 {
      RunsAreSolventAndConserve(states, steps, k - 1);
      StepSafe(states[k - 1], steps[k - 1]);
    }
  }
}
