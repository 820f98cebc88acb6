/** The life of a contract: settled states are final, escrow is released once, deadlines are enforced,
    and completing by hand or by the tick comes to the same. */
module EscrowLifecycle {
  import opened Common
  import opened Bags
  import opened DroppedItems
  import opened Conveyor
  import opened Escrow
  import opened EscrowSafety

  /** All that one step may do to an existing contract. */
  ghost predicate Progress(c: Contract, c': Contract) {
    || c' == c
    || (c.status == Open && c'.status == Accepted
        && c' == c.(status := Accepted, acceptor := c'.acceptor, deposit := c'.deposit))
    || (c.status == Open && c' == c.(status := Failed))
    || (c.status == Accepted && c'.status in {Completed, Failed} && c' == c.(status := c'.status))
  }

  lemma SettleProgress(s: State, cid: ContractId, now: nat, built: bool, k: ContractId)
    requires cid in s.contracts && k in s.contracts
    ensures var s' := Settled(s, cid, now, built);
            k in s'.contracts && Progress(s.contracts[k], s'.contracts[k])
              && (k != cid ==> s'.contracts[k] == s.contracts[k])
  {
  }

  lemma {:induction false} SettleAllProgress(s: State, order: seq<ContractId>, now: nat, built: set<ContractId>,
                                             k: ContractId)
    requires (forall cid :: cid in order ==> cid in s.contracts) && k in s.contracts
    requires forall j, l :: 0 <= j < l < |order| ==> order[j] != order[l]
    ensures Progress(s.contracts[k], SettledAll(s, order, now, built).contracts[k])
    ensures k !in order ==> SettledAll(s, order, now, built).contracts[k] == s.contracts[k]
    ensures k in order ==> var c' := SettledAll(s, order, now, built).contracts[k]; c'.Live() ==> now <= c'.deadline
    decreases |order|
  {
    if order != [] {
      var s1 := Settled(s, order[0], now, order[0] in built);
      assert order == [order[0]] + order[1..];
      assert order[0] !in order[1..];
      SettleProgress(s, order[0], now, order[0] in built, k);
      assert s1.contracts.Keys == s.contracts.Keys;
      SettleAllProgress(s1, order[1..], now, built, k);
    }
  }

  /** After the settler's tick at `now` no live contract is past its deadline. */
  lemma NoOverdueContracts(s: State, order: seq<ContractId>, now: nat, built: set<ContractId>, k: ContractId)
    requires Lists(order, s.contracts.Keys) && k in s.contracts
    ensures var c := SettledAll(s, order, now, built).contracts[k]; c.Live() ==> now <= c.deadline
  {
    SettleAllProgress(s, order, now, built, k);
  }

  lemma StepProgress(s: State, step: Step, k: ContractId)
    requires Good(s) && Enabled(s, step) && k in s.contracts
    ensures k in After(s, step).contracts && Progress(s.contracts[k], After(s, step).contracts[k])
  {
    if step.SettleTick? {
      SettleAllProgress(s, step.order, step.now, step.builds, k);
    }
  }

  ghost predicate Holds(s: State, k: ContractId) {
    k in s.contracts && s.contracts[k].Live()
  }

  /** How often contract `k` leaves escrow during the first `n` steps. */
  ghost function Releases(states: seq<State>, k: ContractId, n: nat): nat
    requires n < |states|
  {
    if n == 0 then 0
    else Releases(states, k, n - 1) + if Holds(states[n - 1], k) && !Holds(states[n], k) then 1 else 0
  }

  ghost predicate Progressed(states: seq<State>, k: ContractId, j: nat)
    requires j + 1 < |states| && k in states[j].contracts && k in states[j + 1].contracts
  {
    Progress(states[j].contracts[k], states[j + 1].contracts[k])
  }

  ghost predicate Tracked(states: seq<State>, k: ContractId, n: nat)
    requires n < |states|
  {
    && (forall j :: 0 <= j <= n ==> k in states[j].contracts)
    && (forall j :: 0 <= j < n ==> Progressed(states, k, j))
  }

  ghost predicate Carries(states: seq<State>, k: ContractId, j: nat)
    requires j + 1 < |states|
  {
    k in states[j].contracts ==> k in states[j + 1].contracts && Progressed(states, k, j)
  }

  lemma {:induction false} RunTracks(states: seq<State>, k: ContractId, n: nat)
    requires n < |states| && k in states[0].contracts
    requires forall j: nat :: j + 1 < |states| ==> Carries(states, k, j)
    ensures Tracked(states, k, n)
  {
    if n > 0 {
      RunTracks(states, k, n - 1);
      assert Carries(states, k, n - 1);
    }
  }

  lemma RunProgress(states: seq<State>, steps: seq<Step>, k: ContractId, j: nat)
    requires IsRun(states, steps) && Good(states[0]) && j + 1 < |states| && k in states[j].contracts
    ensures k in states[j + 1].contracts && Progressed(states, k, j)
  {
    RunsAreSolventAndConserve(states, steps, j);
    StepProgress(states[j], steps[j], k);
  }

  lemma {:induction false} TrackedReleases(states: seq<State>, k: ContractId, n: nat)
    requires n < |states| && Tracked(states, k, n)
    ensures Releases(states, k, n) == if Holds(states[0], k) && !Holds(states[n], k) then 1 else 0
    ensures var c, c' := states[0].contracts[k], states[n].contracts[k];
            && (c.Live() || c' == c)
            && (c.status == Accepted ==> c' == c.(status := c'.status) && c'.status != Open)
            && c' == c.(status := c'.status, acceptor := c'.acceptor, deposit := c'.deposit)
  {
    if n > 0 {
      TrackedReleases(states, k, n - 1);
      assert Progressed(states, k, n - 1);
    }
  }

  /** Along every run a live contract is released at most once, a settled one never changes again, an
      accepted one changes nothing but its status, and what was promised on posting stays as posted. */
  lemma EscrowReleasedExactlyOnce(states: seq<State>, steps: seq<Step>, k: ContractId, n: nat)
    requires IsRun(states, steps) && Good(states[0]) && n < |states| && k in states[0].contracts
    ensures k in states[n].contracts
    ensures Releases(states, k, n) == if Holds(states[0], k) && !Holds(states[n], k) then 1 else 0
    ensures var c, c' := states[0].contracts[k], states[n].contracts[k];
            && (c.Live() || c' == c)
            && (c.status == Accepted ==> c' == c.(status := c'.status) && c'.status != Open)
            && c' == c.(status := c'.status, acceptor := c'.acceptor, deposit := c'.deposit)
  {
    forall j: nat | j + 1 < |states| ensures Carries(states, k, j) {
      if k in states[j].contracts {
        RunProgress(states, steps, k, j);
      }
    }
    RunTracks(states, k, n);
    TrackedReleases(states, k, n);
  }

  // ----- submit by hand or let the tick complete it

  ghost predicate SameHoldings(s: State, t: State) {
    && s.agents.Keys == t.agents.Keys && s.belts == t.belts && s.contracts == t.contracts
    && forall a, i :: a in s.agents ==> Count(s.agents[a].inventory, i) == Count(t.agents[a].inventory, i)
  }

  ghost predicate SameOutcome(submitted: State, settled: State, poster: AgentId, p: Pos) {
    if poster !in submitted.agents then settled == submitted
    else
      && poster in settled.agents && p in submitted.belts.containers && p in settled.belts.containers
      && SameHoldings(Collected(submitted, poster, p), Collected(settled, poster, p))
  }

  lemma ReadyFacts(s: State, who: AgentId, cid: ContractId, now: nat, built: bool)
    requires who in s.agents && cid in s.contracts
    requires SubmitCheck(s, who, Some(cid), Some(s.contracts[cid].terminal), now, built) == Done
    ensures var c := s.contracts[cid];
            && c.status == Accepted && c.acceptor == who && c.terminal in s.belts.containers && now <= c.deadline
            && (if c.kind == Build then built else HasAvailable(c.requirements, s.belts.containers[c.terminal]))
            && Submitted(s, who, Some(cid), Some(c.terminal), now, built) == Delivered(s, cid, ToOwed(c.poster), who)
  {
  }

  lemma AutoCompletes(s: State, cid: ContractId, now: nat, built: bool)
    requires cid in s.contracts && s.contracts[cid].status == Accepted
               && s.contracts[cid].terminal in s.belts.containers
    requires now <= s.contracts[cid].deadline
    requires if s.contracts[cid].kind == Build then built
             else HasAvailable(s.contracts[cid].requirements, s.belts.containers[s.contracts[cid].terminal])
    ensures Settled(s, cid, now, built)
              == Carried(s, cid, Plan(Completed, s.contracts[cid].kind != Build, Acceptor, Acceptor))
    ensures Settled(s, cid, now, built).contracts[cid].status == Completed
  {
  }

  lemma PaidEmpty(s: State, p: Pos, items: Bag, dest: Dest, unreserve: bool)
    requires p in s.belts.containers && (dest.ToAgent? ==> dest.id in s.agents)
    ensures items == map[] ==> MovedOut(s, p, items, dest, unreserve) == s
  {
    if items == map[] {
      var c := s.belts.containers[p];
      assert Drain(c.inventory, items) == c.inventory && Drain(c.reserved, items) == c.reserved;
      if dest.ToAgent? {
        assert Fill(s.agents[dest.id].inventory, items) == s.agents[dest.id].inventory;
        assert s.agents[dest.id := s.agents[dest.id]] == s.agents;
      }
      assert s.belts.containers[p := c] == s.belts.containers;
    }
  }

  lemma PaidIsMovedOut(s: State, p: Pos, items: Bag, to: AgentId, unreserve: bool)
    requires p in s.belts.containers && to != ""
    ensures Paid(s, p, items, to, unreserve)
         == MovedOut(s, p, items, if to in s.agents then ToAgent(to) else ToOwed(to), unreserve)
  {
    PaidEmpty(s, p, items, if to in s.agents then ToAgent(to) else ToOwed(to), unreserve);
  }

  /** The three payments of a completion, one after the other. */
  lemma CarriedIsDelivered(s: State, cid: ContractId, who: AgentId)
    requires cid in s.contracts && s.contracts[cid].status == Accepted && who == s.contracts[cid].acceptor
    requires s.contracts[cid].poster != "" && who != ""
    requires s.contracts[cid].terminal in s.belts.containers && who in s.agents
    ensures var c := s.contracts[cid];
            Carried(s, cid, Plan(Completed, c.kind != Build, Acceptor, Acceptor))
            == Delivered(s, cid, if c.poster in s.agents then ToAgent(c.poster) else ToOwed(c.poster), who)
  {
    var c := s.contracts[cid];
    var p := c.terminal;
    PaidIsMovedOut(s, p, c.requirements, c.poster, false);
    var s1 := if c.kind == Build then s else Paid(s, p, c.requirements, c.poster, false);
    assert s1.agents.Keys == s.agents.Keys && p in s1.belts.containers;
    PaidIsMovedOut(s1, p, c.reward, who, true);
    var s2 := Paid(s1, p, c.reward, who, true);
    assert s2.agents.Keys == s.agents.Keys && p in s2.belts.containers;
    PaidIsMovedOut(s2, p, c.deposit, who, true);
  }

  lemma OwedForgotten(owed: map<AgentId, Bag>, a: AgentId, items: Bag)
    ensures AddOwed(owed, a, items) - {a} == owed - {a}
  {
  }

  lemma SetTwice<K, V>(m: map<K, V>, k: K, v: V, w: V)
    ensures m[k := v][k := w] == m[k := w]
  {
  }

  lemma MovedOutBelts(s: State, p: Pos, items: Bag, dest: Dest, unreserve: bool)
    requires p in s.belts.containers && (dest.ToAgent? ==> dest.id in s.agents)
    ensures var c := s.belts.containers[p];
            var t := MovedOut(s, p, items, dest, unreserve);
            && t.belts.store == s.belts.store && t.agents.Keys == s.agents.Keys
            && t.belts.containers == s.belts.containers[p :=
                 Container(c.kind, Drain(c.inventory, items),
                           if unreserve then Drain(c.reserved, items) else c.reserved,
                           if dest.ToOwed? then AddOwed(c.owed, dest.id, items) else c.owed)]
  {
  }

  /** The terminal after a delivery depends on who gets the requirements only through its debts. */
  lemma DeliveredBelts(s: State, cid: ContractId, dest: Dest, who: AgentId)
    requires cid in s.contracts && s.contracts[cid].terminal in s.belts.containers && who in s.agents
    requires dest.ToAgent? ==> dest.id in s.agents
    ensures var c := s.contracts[cid];
            var held := s.belts.containers[c.terminal];
            var kept := if c.kind == Build then held.inventory else Drain(held.inventory, c.requirements);
            var t := Delivered(s, cid, dest, who);
            && t.belts.store == s.belts.store && t.agents.Keys == s.agents.Keys
            && t.belts.containers == s.belts.containers[c.terminal :=
                 Container(held.kind, Drain(Drain(kept, c.reward), c.deposit),
                           Drain(Drain(held.reserved, c.reward), c.deposit),
                           if dest.ToOwed? && c.kind != Build then AddOwed(held.owed, dest.id, c.requirements)
                           else held.owed)]
  {
    var c := s.contracts[cid];
    var p := c.terminal;
    var s1 := if c.kind == Build then s else MovedOut(s, p, c.requirements, dest, false);
    var s2 := MovedOut(s1, p, c.reward, ToAgent(who), true);
    var s3 := MovedOut(s2, p, c.deposit, ToAgent(who), true);
    assert s.belts.containers[p := s.belts.containers[p]] == s.belts.containers;
    MovedOutBelts(s, p, c.requirements, dest, false);
    MovedOutBelts(s1, p, c.reward, ToAgent(who), true);
    MovedOutBelts(s2, p, c.deposit, ToAgent(who), true);
    SetTwice(s.belts.containers, p, s1.belts.containers[p], s2.belts.containers[p]);
    SetTwice(s.belts.containers, p, s2.belts.containers[p], s3.belts.containers[p]);
  }

  lemma BeltsAgree(s: State, cid: ContractId, who: AgentId)
    requires cid in s.contracts && s.contracts[cid].terminal in s.belts.containers && who in s.agents
    requires s.contracts[cid].poster in s.agents
    ensures var c := s.contracts[cid];
            var t, u := Delivered(s, cid, ToOwed(c.poster), who), Delivered(s, cid, ToAgent(c.poster), who);
            && c.poster in t.agents && c.poster in u.agents && c.terminal in t.belts.containers
              && c.terminal in u.belts.containers
            && Collected(t, c.poster, c.terminal).belts == Collected(u, c.poster, c.terminal).belts
  {
    var c := s.contracts[cid];
    var p, poster := c.terminal, c.poster;
    DeliveredBelts(s, cid, ToOwed(poster), who);
    DeliveredBelts(s, cid, ToAgent(poster), who);
    var t, u := Delivered(s, cid, ToOwed(poster), who), Delivered(s, cid, ToAgent(poster), who);
    OwedForgotten(s.belts.containers[p].owed, poster, c.requirements);
    var ct, cu := t.belts.containers[p], u.belts.containers[p];
    SetTwice(s.belts.containers, p, ct, ct.(owed := ct.owed - {poster}));
    SetTwice(s.belts.containers, p, cu, cu.(owed := cu.owed - {poster}));
  }

  lemma OwedGrows(owed: map<AgentId, Bag>, a: AgentId, items: Bag, i: Item)
    requires NoDebt(owed)
    ensures var before := if a in owed then owed[a] else map[];
            var after := AddOwed(owed, a, items);
            Amount(if a in after then after[a] else map[], i) == Amount(before, i) + Amount(items, i)
  {
    BagFlows(if a in owed then owed[a] else map[], items, i);
  }

  lemma DeliveredCounts(s: State, cid: ContractId, dest: Dest, who: AgentId, a: AgentId, i: Item)
    requires cid in s.contracts && s.contracts[cid].terminal in s.belts.containers && who in s.agents && a in s.agents
    requires dest.ToAgent? ==> dest.id in s.agents
    ensures var c := s.contracts[cid];
            var t := Delivered(s, cid, dest, who);
            && a in t.agents
            && Count(t.agents[a].inventory, i)
               == Count(s.agents[a].inventory, i)
                  + (if a == who then Amount(c.reward, i) + Amount(c.deposit, i) else 0)
                  + (if dest == ToAgent(a) && c.kind != Build then Amount(c.requirements, i) else 0)
  {
    var c := s.contracts[cid];
    var p := c.terminal;
    var s1 := if c.kind == Build then s else MovedOut(s, p, c.requirements, dest, false);
    BagFlows(s.agents[a].inventory, c.requirements, i);
    BagFlows(s1.agents[a].inventory, c.reward, i);
    var s2 := MovedOut(s1, p, c.reward, ToAgent(who), true);
    BagFlows(s2.agents[a].inventory, c.deposit, i);
  }

  lemma HandsAgree(s: State, cid: ContractId, who: AgentId, a: AgentId, i: Item)
    requires cid in s.contracts && s.contracts[cid].terminal in s.belts.containers && who in s.agents
    requires s.contracts[cid].poster in s.agents && a in s.agents
    requires NoDebt(s.belts.containers[s.contracts[cid].terminal].owed)
    ensures var c := s.contracts[cid];
            var t, u := Delivered(s, cid, ToOwed(c.poster), who), Delivered(s, cid, ToAgent(c.poster), who);
            && a in t.agents && a in u.agents && c.terminal in t.belts.containers && c.terminal in u.belts.containers
            && c.poster in t.agents && c.poster in u.agents
            && Count(Collected(t, c.poster, c.terminal).agents[a].inventory, i)
               == Count(Collected(u, c.poster, c.terminal).agents[a].inventory, i)
  {
    var c := s.contracts[cid];
    var p, poster := c.terminal, c.poster;
    var t, u := Delivered(s, cid, ToOwed(poster), who), Delivered(s, cid, ToAgent(poster), who);
    DeliveredBelts(s, cid, ToOwed(poster), who);
    DeliveredBelts(s, cid, ToAgent(poster), who);
    DeliveredCounts(s, cid, ToOwed(poster), who, a, i);
    DeliveredCounts(s, cid, ToAgent(poster), who, a, i);
    OwedGrows(s.belts.containers[p].owed, poster, c.requirements, i);
    BagFlows(t.agents[a].inventory, OwedTo(t.belts.containers[p], poster), i);
    BagFlows(u.agents[a].inventory, OwedTo(u.belts.containers[p], poster), i);
  }

  lemma EitherRoute(s: State, cid: ContractId, who: AgentId)
    requires cid in s.contracts && s.contracts[cid].terminal in s.belts.containers && who in s.agents
    requires NoDebt(s.belts.containers[s.contracts[cid].terminal].owed)
    ensures var c := s.contracts[cid];
            SameOutcome(Delivered(s, cid, ToOwed(c.poster), who),
                        Delivered(s, cid, if c.poster in s.agents then ToAgent(c.poster) else ToOwed(c.poster), who),
                        c.poster, c.terminal)
  {
    var c := s.contracts[cid];
    var p, poster := c.terminal, c.poster;
    DeliveredBelts(s, cid, ToOwed(poster), who);
    if poster in s.agents {
      DeliveredBelts(s, cid, ToAgent(poster), who);
      BeltsAgree(s, cid, who);
      var t, u := Collected(Delivered(s, cid, ToOwed(poster), who), poster, p),
        Collected(Delivered(s, cid, ToAgent(poster), who), poster, p);
      forall a, i | a in t.agents ensures Count(t.agents[a].inventory, i) == Count(u.agents[a].inventory, i) {
        HandsAgree(s, cid, who, a, i);
      }
    }
  }

  /** A contract ready to be submitted ends in the same holdings whether its acceptor submits it or the
      tick completes it, once the poster has collected at the terminal; with the poster gone the two
      states are equal outright. */
  lemma SubmitMatchesAutoCompletion(s: State, who: AgentId, cid: ContractId, now: nat, built: bool)
    requires who in s.agents && cid in s.contracts && WellFormed(s, s.contracts[cid])
    requires SubmitCheck(s, who, Some(cid), Some(s.contracts[cid].terminal), now, built) == Done
    requires NoDebt(s.belts.containers[s.contracts[cid].terminal].owed)
    ensures Settled(s, cid, now, built).contracts[cid].status == Completed
    ensures var c := s.contracts[cid];
            SameOutcome(Submitted(s, who, Some(cid), Some(c.terminal), now, built), Settled(s, cid, now, built),
              c.poster, c.terminal)
  {
    var c := s.contracts[cid];
    ReadyFacts(s, who, cid, now, built);
    AutoCompletes(s, cid, now, built);
    CarriedIsDelivered(s, cid, who);
    EitherRoute(s, cid, who);
  }
}
