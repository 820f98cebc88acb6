/** When a contract request is granted and what is then recorded, told from the request itself. */
module EscrowTerms {
  import opened Common
  import opened Bags
  import opened DroppedItems
  import opened Conveyor
  import opened Escrow
  import opened EscrowSafety
  import opened EscrowLifecycle
  import opened EscrowPayouts
  import opened EscrowOrder
  import opened EscrowTicks

  /** What a list of stacks asks of one item: the positive counts of the stacks that name it. */
  function Asked(stacks: seq<Stack>, i: Item): nat {
    if stacks == [] then 0
    else
      var last := stacks[|stacks| - 1];
      Asked(stacks[..|stacks| - 1], i) + if last.item == i && i != "" && last.count > 0 then last.count else 0
  }

  lemma {:induction false} BagIsAsked(stacks: seq<Stack>, i: Item)
    ensures Amount(StacksToBag(stacks), i) == Count(StacksToBag(stacks), i) == Asked(stacks, i)
    ensures i in StacksToBag(stacks) <==> Asked(stacks, i) > 0
  {
    if stacks != [] {
      BagIsAsked(stacks[..|stacks| - 1], i);
    }
  }

  ghost predicate AsksSomething(stacks: seq<Stack>) {
    exists i :: Asked(stacks, i) > 0
  }

  lemma BagIsEmpty(stacks: seq<Stack>)
    ensures StacksToBag(stacks) != map[] <==> AsksSomething(stacks)
  {
    forall i ensures i in StacksToBag(stacks) <==> Asked(stacks, i) > 0 {
      BagIsAsked(stacks, i);
    }
    if StacksToBag(stacks) != map[] {
      var i :| i in StacksToBag(stacks);
      assert Asked(stacks, i) > 0;
    }
  }

  /** `who` stands at most three steps from a contract terminal at `p`. */
  ghost predicate NearTerminal(s: State, who: AgentId, p: Pos)
    requires who in s.agents
  {
    && p in s.belts.containers && s.belts.containers[p].kind == "CONTRACT_TERMINAL"
    && var q := s.agents[who].pos; Abs(q.x - p.x) + Abs(q.y - p.y) + Abs(q.z - p.z) <= 3
  }

  ghost predicate CanAfford(s: State, who: AgentId, stacks: seq<Stack>) {
    forall i :: Asked(stacks, i) > 0 ==> Asked(stacks, i) <= Hand(s, who, i)
  }

  /** What is paid into a terminal's escrow leaves the payer's hand, nobody else's, and is stocked and reserved. */
  lemma PaidIn(s: State, who: AgentId, p: Pos, items: Bag, i: Item)
    requires who in s.agents && p in s.belts.containers
    ensures var t, n := Deposited(s, who, p, items), Amount(items, i);
            && (forall a :: Hand(t, a, i) == Hand(s, a, i) - if a == who then n else 0)
            && CountAt(t, Stocked(p), i) == CountAt(s, Stocked(p), i) + n
            && CountAt(t, Reserved(p), i) == CountAt(s, Reserved(p), i) + n
  {
    BagFlows(s.agents[who].inventory, items, i);
    BagFlows(s.belts.containers[p].inventory, items, i);
    BagFlows(s.belts.containers[p].reserved, items, i);
  }

  // ----- posting

  /** A post is granted exactly when the terminal is near, a reward is offered that the poster has, and the kind is
      known and has what it needs: a build a blueprint, the others some requirement. */
  lemma PostGrantedIff(s: State, who: AgentId, r: PostRequest)
    requires who in s.agents
    ensures PostCheck(s, who, r) == Done <==>
              && r.terminal.Some? && NearTerminal(s, who, r.terminal.value) && r.kind.Some?
              && AsksSomething(r.reward) && CanAfford(s, who, r.reward)
              && if r.kind == Some(Build) then r.blueprint != "" else AsksSomething(r.requirements)
  {
    BagIsEmpty(r.reward);
    BagIsEmpty(r.requirements);
    forall i ensures i in StacksToBag(r.reward) <==> Asked(r.reward, i) > 0
             ensures Count(StacksToBag(r.reward), i) == Asked(r.reward, i)
    {
      BagIsAsked(r.reward, i);
    }
  }

  /** The contract of a granted post is recorded under the next number with the terms of the request, each in its own
      place. */
  lemma PostRecordsTheRequest(s: State, who: AgentId, r: PostRequest, now: nat, dayTicks: int, i: Item)
    requires who in s.agents && PostCheck(s, who, r) == Done
    ensures var t, k := Posted(s, who, r, now, dayTicks), s.next + 1;
            && t.next == k && t.contracts.Keys == s.contracts.Keys + {k}
            && (forall l :: l in s.contracts && l != k ==> t.contracts[l] == s.contracts[l])
            && var c := t.contracts[k];
               && c.poster == who && c.terminal == r.terminal.value && c.kind == r.kind.value
               && c.acceptor == "" && c.status == Open
               && Count(c.requirements, i) == Asked(r.requirements, i)
               && Count(c.reward, i) == Asked(r.reward, i)
               && Count(c.deposit, i) == Asked(r.deposit, i)
               && c.deadline == (if r.deadline != 0 then r.deadline
                                 else if r.duration > 0 then now + r.duration
                                 else if dayTicks > 0 then now + dayTicks
                                 else now)
  {
    BagIsAsked(r.requirements, i);
    BagIsAsked(r.reward, i);
    BagIsAsked(r.deposit, i);
  }

  /** Its poster pays exactly the reward, into the terminal's reservation, and nobody else pays anything. */
  lemma PostPaysTheReward(s: State, who: AgentId, r: PostRequest, now: nat, dayTicks: int, i: Item)
    requires who in s.agents && PostCheck(s, who, r) == Done
    ensures var t, p := Posted(s, who, r, now, dayTicks), r.terminal.value;
            && (forall a :: Hand(t, a, i) == Hand(s, a, i) - if a == who then Asked(r.reward, i) else 0)
            && CountAt(t, Stocked(p), i) == CountAt(s, Stocked(p), i) + Asked(r.reward, i)
            && CountAt(t, Reserved(p), i) == CountAt(s, Reserved(p), i) + Asked(r.reward, i)
  {
    BagIsAsked(r.reward, i);
    PaidIn(s, who, r.terminal.value, StacksToBag(r.reward), i);
  }

  // ----- accepting

  /** The deposit asked of an agent whose standing multiplies it; a multiplier below one does not lower it. */
  function Scaled(n: int, multiplier: int): nat {
    if n <= 0 then 0 else if multiplier > 1 then n * multiplier else n
  }

  lemma ScaledGrows(n: int, multiplier: int)
    ensures n > 0 ==> Scaled(n, multiplier) >= n
  {
  }

  lemma DepositIsScaled(base: Bag, multiplier: int, i: Item)
    requires i != ""
    ensures Count(ScaleDeposit(base, multiplier), i) == Scaled(Count(base, i), multiplier)
    ensures i in ScaleDeposit(base, multiplier) <==> Count(base, i) > 0
  {
    ScaledGrows(Count(base, i), multiplier);
  }

  /** The contract of a request stands open at the near terminal, within its deadline. */
  ghost predicate Acceptable(s: State, who: AgentId, cid: Option<ContractId>, at: Option<Pos>, now: nat)
    requires who in s.agents
  {
    && cid.Some? && at.Some? && cid.value in s.contracts && s.contracts[cid.value].status == Open
    && at.value == s.contracts[cid.value].terminal && NearTerminal(s, who, at.value)
    && now <= s.contracts[cid.value].deadline
  }

  /** Accepting is granted exactly when the contract is acceptable and the agent has the scaled deposit. */
  lemma AcceptGrantedIff(s: State, who: AgentId, cid: Option<ContractId>, at: Option<Pos>, now: nat, multiplier: int)
    requires who in s.agents
    ensures AcceptCheck(s, who, cid, at, now, multiplier) == Done <==>
              && Acceptable(s, who, cid, at, now)
              && forall i :: i != "" && Count(s.contracts[cid.value].deposit, i) > 0 ==>
                   Scaled(Count(s.contracts[cid.value].deposit, i), multiplier) <= Hand(s, who, i)
  {
    if Acceptable(s, who, cid, at, now) {
      var base := s.contracts[cid.value].deposit;
      forall i | i != ""
        ensures Count(ScaleDeposit(base, multiplier), i) == Scaled(Count(base, i), multiplier)
        ensures i in ScaleDeposit(base, multiplier) <==> Count(base, i) > 0
      {
        DepositIsScaled(base, multiplier, i);
      }
      assert "" !in ScaleDeposit(base, multiplier);
    }
  }

  /** Once granted, the contract names its acceptor and the scaled deposit and keeps all its other terms; the acceptor
      pays exactly that deposit into the terminal's reservation. */
  lemma AcceptRecordsTheDeposit(s: State, who: AgentId, cid: Option<ContractId>, at: Option<Pos>, now: nat,
                                multiplier: int, i: Item)
    requires who in s.agents && AcceptCheck(s, who, cid, at, now, multiplier) == Done && i != ""
    ensures var t, c := AcceptedBy(s, who, cid, at, now, multiplier), s.contracts[cid.value];
            && t.next == s.next && t.contracts.Keys == s.contracts.Keys
            && (forall l :: l in s.contracts && l != cid.value ==> t.contracts[l] == s.contracts[l])
            && var c', paid := t.contracts[cid.value], Scaled(Count(c.deposit, i), multiplier);
               && c' == c.(status := Accepted, acceptor := who, deposit := c'.deposit)
               && Count(c'.deposit, i) == paid
               && (forall a :: Hand(t, a, i) == Hand(s, a, i) - if a == who then paid else 0)
               && CountAt(t, Stocked(c.terminal), i) == CountAt(s, Stocked(c.terminal), i) + paid
               && CountAt(t, Reserved(c.terminal), i) == CountAt(s, Reserved(c.terminal), i) + paid
  {
    var c := s.contracts[cid.value];
    DepositIsScaled(c.deposit, multiplier, i);
    PaidIn(s, who, c.terminal, ScaleDeposit(c.deposit, multiplier), i);
  }

  // ----- submitting and collecting

  /** Submitting is granted exactly to the acceptor, at the near terminal, in time, with the work done. */
  lemma SubmitGrantedIff(s: State, who: AgentId, cid: Option<ContractId>, at: Option<Pos>, now: nat, built: bool)
    requires who in s.agents
    ensures SubmitCheck(s, who, cid, at, now, built) == Done <==>
              && cid.Some? && at.Some? && cid.value in s.contracts && s.contracts[cid.value].acceptor == who
              && at.value == s.contracts[cid.value].terminal && NearTerminal(s, who, at.value)
              && now <= s.contracts[cid.value].deadline && WorkDone(s, s.contracts[cid.value], built)
  {
    if cid.Some? && cid.value in s.contracts && s.contracts[cid.value].terminal in s.belts.containers {
      var c := s.contracts[cid.value];
      assert HasAvailable(c.requirements, s.belts.containers[c.terminal]) <==> GoodsAt(s, c.terminal, c.requirements);
    }
  }

  /** A debt can be collected exactly within three steps of a container of any kind. */
  lemma ClaimGrantedIff(s: State, who: AgentId, at: Option<Pos>)
    requires who in s.agents
    ensures ClaimCheck(s, who, at) == Done <==>
              && at.Some? && at.value in s.belts.containers
              && var p, q := at.value, s.agents[who].pos; Abs(q.x - p.x) + Abs(q.y - p.y) + Abs(q.z - p.z) <= 3
  {
  }

  /** The code of a refusal names a fault that is there: something missing from the request, a target that is not what
      it should be, too far or not ready, not affordable, not open or in time, or not the acceptor. */
  lemma PostCodeIsTrue(s: State, who: AgentId, r: PostRequest)
    requires who in s.agents
    ensures match PostCheck(s, who, r)
            case BadRequest =>
              || r.terminal.None? || r.kind.None? || !AsksSomething(r.reward)
              || (if r.kind == Some(Build) then r.blueprint == "" else !AsksSomething(r.requirements))
            case InvalidTarget =>
              && r.terminal.Some?
              && (r.terminal.value !in s.belts.containers
                  || s.belts.containers[r.terminal.value].kind != "CONTRACT_TERMINAL")
            case Blocked => r.terminal.Some? && !NearTerminal(s, who, r.terminal.value)
            case NoResource => AsksSomething(r.reward) && !CanAfford(s, who, r.reward)
            case Conflict => false
            case NoPermission => false
            case Done => true
  {
    BagIsEmpty(r.reward);
    BagIsEmpty(r.requirements);
    forall i ensures i in StacksToBag(r.reward) <==> Asked(r.reward, i) > 0
             ensures Count(StacksToBag(r.reward), i) == Asked(r.reward, i)
    {
      BagIsAsked(r.reward, i);
    }
  }

  lemma AcceptCodeIsTrue(s: State, who: AgentId, cid: Option<ContractId>, at: Option<Pos>, now: nat, multiplier: int)
    requires who in s.agents
    ensures match AcceptCheck(s, who, cid, at, now, multiplier)
            case BadRequest => cid.None? || at.None?
            case InvalidTarget =>
              && cid.Some? && at.Some?
              && (cid.value !in s.contracts || at.value != s.contracts[cid.value].terminal
                  || at.value !in s.belts.containers || s.belts.containers[at.value].kind != "CONTRACT_TERMINAL")
            case Conflict =>
              && cid.Some? && cid.value in s.contracts
              && (s.contracts[cid.value].status != Open || s.contracts[cid.value].deadline < now)
            case Blocked => at.Some? && !NearTerminal(s, who, at.value)
            case NoResource =>
              && cid.Some? && cid.value in s.contracts
              && !Covers(s.agents[who].inventory, ScaleDeposit(s.contracts[cid.value].deposit, multiplier))
            case NoPermission => false
            case Done => true
  {
  }

  lemma SubmitCodeIsTrue(s: State, who: AgentId, cid: Option<ContractId>, at: Option<Pos>, now: nat, built: bool)
    requires who in s.agents
    ensures match SubmitCheck(s, who, cid, at, now, built)
            case BadRequest => cid.None? || at.None?
            case InvalidTarget =>
              && cid.Some? && at.Some?
              && (cid.value !in s.contracts || at.value != s.contracts[cid.value].terminal
                  || at.value !in s.belts.containers || s.belts.containers[at.value].kind != "CONTRACT_TERMINAL")
            case NoPermission =>
              && cid.Some? && cid.value in s.contracts
              && (s.contracts[cid.value].status != Accepted || s.contracts[cid.value].acceptor != who)
            case Conflict => cid.Some? && cid.value in s.contracts && s.contracts[cid.value].deadline < now
            case Blocked =>
              && cid.Some? && at.Some? && cid.value in s.contracts
              && (!NearTerminal(s, who, at.value) || !WorkDone(s, s.contracts[cid.value], built))
            case NoResource => false
            case Done => true
  {
    SubmitGrantedIff(s, who, cid, at, now, built);
  }

  /** A refused request changes nothing. */
  lemma RefusedChangesNothing(s: State, who: AgentId, r: PostRequest, cid: Option<ContractId>, at: Option<Pos>,
                              now: nat, n: int, built: bool)
    requires who in s.agents
    ensures PostCheck(s, who, r) != Done ==> Posted(s, who, r, now, n) == s
    ensures AcceptCheck(s, who, cid, at, now, n) != Done ==> AcceptedBy(s, who, cid, at, now, n) == s
    ensures SubmitCheck(s, who, cid, at, now, built) != Done ==> Submitted(s, who, cid, at, now, built) == s
    ensures ClaimCheck(s, who, at) != Done ==> Claimed(s, who, at) == s
  {
  }

  // ----- coming and going

  /** Who arrives with an id that is not taken stands on the ground where it came in, with the named items it brought
      some of; anyone else is turned away. */
  lemma ArrivalIs(s: State, who: AgentId, at: Pos, carried: Bag, i: Item)
    ensures var t := Arrived(s, who, at, carried);
            if who == "" || who in s.agents then t == s
            else
              && t.belts == s.belts && t.contracts == s.contracts && t.next == s.next
              && t.agents == s.agents[who := t.agents[who]] && t.agents[who].pos == Pos(at.x, 0, at.z)
              && Count(t.agents[who].inventory, i) == if i == "" then 0 else Amount(carried, i)
  {
  }

  /** Who departs leaves its contracts, debts and stakes behind. */
  lemma DepartureIs(s: State, who: AgentId, a: AgentId)
    ensures var t := Departed(s, who);
            && t.belts == s.belts && t.contracts == s.contracts && t.next == s.next
            && (a in t.agents <==> a in s.agents && a != who) && (a in t.agents ==> t.agents[a] == s.agents[a])
  {
  }
}
