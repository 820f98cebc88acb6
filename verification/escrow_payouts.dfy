/** Who pays into escrow and who is paid out of it, in hand or as a debt of the terminal. */
module EscrowPayouts {
  import opened Common
  import opened Bags
  import opened DroppedItems
  import opened Conveyor
  import opened Escrow
  import opened EscrowSafety
  import opened EscrowLifecycle

  function Debt(s: State, p: Pos, x: AgentId, i: Item): int
    requires p in s.belts.containers
  {
    Amount(OwedTo(s.belts.containers[p], x), i)
  }

  ghost predicate SamePlaces(s: State, t: State) {
    t.agents.Keys == s.agents.Keys && t.belts.containers.Keys == s.belts.containers.Keys
  }

  /** From `s` to `t` the id `x` receives `n` of `i`: in hand when it is present, else as a debt. */
  ghost predicate Credited(s: State, t: State, p: Pos, x: AgentId, i: Item, n: int)
    requires p in s.belts.containers
  {
    && SamePlaces(s, t)
    && Hand(t, x, i) == Hand(s, x, i) + (if x in s.agents then n else 0)
    && Debt(t, p, x, i) == Debt(s, p, x, i) + (if x in s.agents then 0 else n)
  }

  ghost predicate NoDebtAt(s: State, p: Pos)
    requires p in s.belts.containers
  {
    NoDebt(s.belts.containers[p].owed)
  }

  // ----- paying in

  /** What goes into escrow comes out of the payer's own inventory, item by item, out of nobody else's, and
      is reserved. */
  lemma PayerAlonePays(s: State, who: AgentId, p: Pos, items: Bag, a: AgentId, i: Item)
    requires who in s.agents && p in s.belts.containers && a in s.agents
    ensures var t := Deposited(s, who, p, items);
            && SamePlaces(s, t)
            && Hand(t, a, i) == Hand(s, a, i) - (if a == who then Amount(items, i) else 0)
            && Count(t.belts.containers[p].reserved, i) == Count(s.belts.containers[p].reserved, i) + Amount(items, i)
  {
    BagFlows(s.agents[who].inventory, items, i);
    BagFlows(s.belts.containers[p].reserved, items, i);
  }

  // ----- the settler's payouts

  lemma OwedGrowsFor(owed: map<AgentId, Bag>, a: AgentId, items: Bag, x: AgentId, i: Item)
    requires NoDebt(owed)
    ensures var before, after := owed, AddOwed(owed, a, items);
            Amount(if x in after then after[x] else map[], i)
            == Amount(if x in before then before[x] else map[], i) + if x == a then Amount(items, i) else 0
  {
    if x == a {
      OwedGrows(owed, a, items, i);
    }
  }

  lemma HandedCredits(s: State, p: Pos, items: Bag, to: AgentId, unreserve: bool, x: AgentId, i: Item)
    requires p in s.belts.containers && to in s.agents && NoDebtAt(s, p)
    ensures var t := MovedOut(s, p, items, ToAgent(to), unreserve);
            Credited(s, t, p, x, i, if x == to then Amount(items, i) else 0) && NoDebtAt(t, p)
  {
    MovedOutBelts(s, p, items, ToAgent(to), unreserve);
    BagFlows(s.agents[to].inventory, items, i);
  }

  lemma OwedCredits(s: State, p: Pos, items: Bag, to: AgentId, unreserve: bool, x: AgentId, i: Item)
    requires p in s.belts.containers && to !in s.agents && NoDebtAt(s, p)
    ensures var t := MovedOut(s, p, items, ToOwed(to), unreserve);
            Credited(s, t, p, x, i, if x == to then Amount(items, i) else 0) && NoDebtAt(t, p)
  {
    MovedOutBelts(s, p, items, ToOwed(to), unreserve);
    OwedGrowsFor(s.belts.containers[p].owed, to, items, x, i);
    AddOwedNoDebt(s.belts.containers[p].owed, to, items);
  }

  lemma PaidCredits(s: State, p: Pos, items: Bag, to: AgentId, unreserve: bool, x: AgentId, i: Item)
    requires p in s.belts.containers && to != "" && NoDebtAt(s, p)
    ensures var t := Paid(s, p, items, to, unreserve);
            Credited(s, t, p, x, i, if x == to then Amount(items, i) else 0) && NoDebtAt(t, p)
  {
    if items != map[] {
      if to in s.agents {
        HandedCredits(s, p, items, to, unreserve, x, i);
      } else {
        OwedCredits(s, p, items, to, unreserve, x, i);
      }
    }
  }

  /** What completion brings the id `x`. */
  function CompletionDue(c: Contract, x: AgentId, i: Item): int {
    (if x == c.acceptor then Amount(c.reward, i) + Amount(c.deposit, i) else 0)
    + (if x == c.poster && c.kind != Build then Amount(c.requirements, i) else 0)
  }

  lemma CarriedPays(s: State, cid: ContractId, consume: bool, x: AgentId, i: Item)
    requires cid in s.contracts && s.contracts[cid].status == Accepted && consume == (s.contracts[cid].kind != Build)
    requires s.contracts[cid].terminal in s.belts.containers && NoDebtAt(s, s.contracts[cid].terminal)
    requires s.contracts[cid].poster != "" && s.contracts[cid].acceptor != ""
    ensures var c, t := s.contracts[cid], Carried(s, cid, Plan(Completed, consume, Acceptor, Acceptor));
            Credited(s, t, c.terminal, x, i, CompletionDue(c, x, i))
  {
    var c := s.contracts[cid];
    var p := c.terminal;
    var s1 := if consume then Paid(s, p, c.requirements, c.poster, false) else s;
    PaidCredits(s, p, c.requirements, c.poster, false, x, i);
    var s2 := Paid(s1, p, c.reward, c.acceptor, true);
    PaidCredits(s1, p, c.reward, c.acceptor, true, x, i);
    PaidCredits(s2, p, c.deposit, c.acceptor, true, x, i);
  }

  /** Completed by the tick, a contract brings its acceptor the reward and the deposit and its poster the
      delivered goods, each in hand or as a debt, and nobody else anything. */
  lemma CompletionPays(s: State, cid: ContractId, now: nat, built: bool, x: AgentId, i: Item)
    requires cid in s.contracts && s.contracts[cid].status == Accepted
    requires s.contracts[cid].terminal in s.belts.containers && NoDebtAt(s, s.contracts[cid].terminal)
    requires WellFormed(s, s.contracts[cid]) && now <= s.contracts[cid].deadline
    requires if s.contracts[cid].kind == Build then built
             else HasAvailable(s.contracts[cid].requirements, s.belts.containers[s.contracts[cid].terminal])
    ensures var c, t := s.contracts[cid], Settled(s, cid, now, built);
            t.contracts[cid].status == Completed && Credited(s, t, c.terminal, x, i, CompletionDue(c, x, i))
  {
    AutoCompletes(s, cid, now, built);
    CarriedPays(s, cid, s.contracts[cid].kind != Build, x, i);
  }

  lemma FailureIsCarried(s: State, cid: ContractId, now: nat, built: bool)
    requires cid in s.contracts && s.contracts[cid].Live()
    requires s.contracts[cid].terminal in s.belts.containers && now > s.contracts[cid].deadline
    ensures var c := s.contracts[cid];
            Settled(s, cid, now, built)
            == Carried(s, cid, Plan(Failed, false, Poster, if c.status == Accepted then Poster else Nobody))
  {
  }

  /** A contract past its deadline fails and returns the reward, and the deposit once one was paid, to its
      poster, in hand or as a debt, and brings nobody else anything. */
  lemma FailureRefundsPoster(s: State, cid: ContractId, now: nat, built: bool, x: AgentId, i: Item)
    requires cid in s.contracts && s.contracts[cid].Live()
    requires s.contracts[cid].terminal in s.belts.containers && NoDebtAt(s, s.contracts[cid].terminal)
    requires WellFormed(s, s.contracts[cid]) && now > s.contracts[cid].deadline
    ensures var c, t := s.contracts[cid], Settled(s, cid, now, built);
            && t.contracts[cid].status == Failed
            && Credited(s, t, c.terminal, x, i, if x == c.poster then Stake(c, c.terminal, i) else 0)
  {
    var c := s.contracts[cid];
    FailureIsCarried(s, cid, now, built);
    var s1 := Paid(s, c.terminal, c.reward, c.poster, true);
    PaidCredits(s, c.terminal, c.reward, c.poster, true, x, i);
    if c.status == Accepted {
      PaidCredits(s1, c.terminal, c.deposit, c.poster, true, x, i);
    }
  }

  // ----- submitting and collecting

  lemma DeliveredHands(s: State, cid: ContractId, dest: Dest, who: AgentId, x: AgentId, i: Item)
    requires cid in s.contracts && s.contracts[cid].terminal in s.belts.containers && who in s.agents && dest.ToOwed?
    ensures var c, t := s.contracts[cid], Delivered(s, cid, dest, who);
            Hand(t, x, i) == Hand(s, x, i) + if x == who then Amount(c.reward, i) + Amount(c.deposit, i) else 0
  {
    DeliveredBelts(s, cid, dest, who);
    if x in s.agents {
      DeliveredCounts(s, cid, dest, who, x, i);
    }
  }

  lemma DeliveredDebts(s: State, cid: ContractId, poster: AgentId, who: AgentId, x: AgentId, i: Item)
    requires cid in s.contracts && s.contracts[cid].terminal in s.belts.containers && who in s.agents
    requires NoDebtAt(s, s.contracts[cid].terminal)
    ensures var c, t := s.contracts[cid], Delivered(s, cid, ToOwed(poster), who);
            && SamePlaces(s, t)
            && Debt(t, c.terminal, x, i)
               == Debt(s, c.terminal, x, i) + if x == poster && c.kind != Build then Amount(c.requirements, i) else 0
  {
    DeliveredBelts(s, cid, ToOwed(poster), who);
    OwedGrowsFor(s.belts.containers[s.contracts[cid].terminal].owed, poster, s.contracts[cid].requirements, x, i);
  }

  /** Submitted by hand, a contract brings its acceptor the reward and the deposit in hand, adds the delivered
      goods to what the terminal owes its poster, and brings nobody else anything. */
  lemma SubmissionPays(s: State, who: AgentId, cid: ContractId, now: nat, built: bool, x: AgentId, i: Item)
    requires who in s.agents && cid in s.contracts
    requires SubmitCheck(s, who, Some(cid), Some(s.contracts[cid].terminal), now, built) == Done
    requires NoDebtAt(s, s.contracts[cid].terminal)
    ensures var c, t := s.contracts[cid], Submitted(s, who, Some(cid), Some(s.contracts[cid].terminal), now, built);
            && t.contracts[cid].status == Completed && SamePlaces(s, t)
            && Hand(t, x, i) == Hand(s, x, i) + (if x == who then Amount(c.reward, i) + Amount(c.deposit, i) else 0)
            && Debt(t, c.terminal, x, i)
               == Debt(s, c.terminal, x, i) + if x == c.poster && c.kind != Build then Amount(c.requirements, i) else 0
  {
    ReadyFacts(s, who, cid, now, built);
    DeliveredHands(s, cid, ToOwed(s.contracts[cid].poster), who, x, i);
    DeliveredDebts(s, cid, s.contracts[cid].poster, who, x, i);
  }

  /** Collecting turns all that the terminal owes the collector into items in hand; everybody else's hands and
      debts stay as they are. */
  lemma CollectionPays(s: State, who: AgentId, p: Pos, x: AgentId, i: Item)
    requires who in s.agents && p in s.belts.containers
    ensures var t := Collected(s, who, p);
            && SamePlaces(s, t)
            && Hand(t, x, i) == Hand(s, x, i) + (if x == who then Debt(s, p, who, i) else 0)
            && Debt(t, p, x, i) == if x == who then 0 else Debt(s, p, x, i)
  {
    BagFlows(s.agents[who].inventory, OwedTo(s.belts.containers[p], who), i);
  }
}
