/** The contract handlers and the settler as they run: loops over item maps that update agents, terminals
    and contracts in place. Each is tied to the function it computes; the invariants of those functions
    are proved in EscrowSafety and EscrowLifecycle. */
module WorldState {
  import opened Common
  import opened Bags
  import opened DroppedItems
  import opened Conveyor
  import opened Escrow

  // ----- one loop iteration on a bag

  function AddOne(b: Bag, i: Item, n: int): Bag {
    b[i := Count(b, i) + n]
  }

  function SubOne(b: Bag, i: Item, n: int): Bag {
    var m := b[i := Count(b, i) - n];
    if m[i] <= 0 then m - {i} else m
  }

  function Part(items: Bag, todo: set<Item>): Bag {
    map i | i in items && i !in todo :: items[i]
  }

  lemma PartGrows(items: Bag, todo: set<Item>, i: Item)
    requires i in todo && todo <= items.Keys
    ensures i !in Part(items, todo)
    ensures Part(items, todo - {i}) == Part(items, todo)[i := items[i]]
  {
  }

  lemma PartEnds(items: Bag)
    ensures Part(items, items.Keys) == map[]
    ensures Part(items, {}) == items
  {
  }

  lemma SameBag(a: Bag, b: Bag)
    requires forall k :: (k in a <==> k in b) && Count(a, k) == Count(b, k)
    ensures a == b
  {
    forall k | k in a ensures k in b && a[k] == b[k] {
      assert Count(a, k) == Count(b, k);
    }
  }

  lemma FillStep(b: Bag, items: Bag, i: Item, n: int)
    requires i !in items
    ensures Fill(b, items[i := n]) == if n > 0 then AddOne(Fill(b, items), i, n) else Fill(b, items)
  {
    var all, stepped := Fill(b, items[i := n]), if n > 0 then AddOne(Fill(b, items), i, n) else Fill(b, items);
    forall k ensures (k in all <==> k in stepped) && Count(all, k) == Count(stepped, k) {
      assert k != i ==> Amount(items[i := n], k) == Amount(items, k);
    }
    SameBag(all, stepped);
  }

  lemma TakeStep(b: Bag, items: Bag, i: Item, n: int)
    requires i !in items && n > 0
    ensures Take(b, items[i := n]) == AddOne(Take(b, items), i, -n)
  {
  }

  lemma DrainStep(b: Bag, items: Bag, i: Item, n: int)
    requires i !in items
    ensures Drain(b, items[i := n]) == if n > 0 then SubOne(Drain(b, items), i, n) else Drain(b, items)
  {
    var all, stepped := Drain(b, items[i := n]), if n > 0 then SubOne(Drain(b, items), i, n) else Drain(b, items);
    forall k ensures (k in all <==> k in stepped) && Count(all, k) == Count(stepped, k) {
      assert k != i ==> Amount(items[i := n], k) == Amount(items, k);
    }
    SameBag(all, stepped);
  }

  lemma BagStart(b: Bag)
    ensures Fill(b, map[]) == b && Take(b, map[]) == b && Drain(b, map[]) == b
  {
  }

  // ----- the loops over item maps

  /** The escrow loop of posting and accepting: from a purse into a terminal, reserving as it goes. */
  method EscrowItems(purse: Bag, inventory: Bag, reserved: Bag, items: Bag) returns (left: Bag, held: Bag, kept: Bag)
    requires Positive(items)
    ensures left == Take(purse, items) && held == Fill(inventory, items) && kept == Fill(reserved, items)
  {
    left, held, kept := purse, inventory, reserved;
    var todo := items.Keys;
    PartEnds(items);
    BagStart(purse);
    BagStart(inventory);
    BagStart(reserved);
    ghost var done: Bag := map[];
    while todo != {}
      invariant todo <= items.Keys && done == Part(items, todo)
      invariant left == Take(purse, done)
      invariant held == Fill(inventory, done)
      invariant kept == Fill(reserved, done)
      decreases todo
    {
      var i :| i in todo;
      PartGrows(items, todo, i);
      TakeStep(purse, done, i, items[i]);
      FillStep(inventory, done, i, items[i]);
      FillStep(reserved, done, i, items[i]);
      left := AddOne(left, i, -items[i]);
      held := AddOne(held, i, items[i]);
      kept := AddOne(kept, i, items[i]);
      done := done[i := items[i]];
      todo := todo - {i};
    }
  }

  /** The loop of ApplyTerminalTransfer, ConsumeRequirementsToPoster and PayoutItems: out of a terminal,
      releasing reservations if asked to, into a receiving map. */
  method TransferItems(inventory: Bag, reserved: Bag, receiver: Bag, items: Bag, unreserve: bool)
    returns (held: Bag, kept: Bag, got: Bag, moved: bool)
    ensures held == Drain(inventory, items)
    ensures kept == if unreserve then Drain(reserved, items) else reserved
    ensures got == Fill(receiver, items)
    ensures moved <==> exists i :: i in items && items[i] > 0
  {
    held, kept, got, moved := inventory, reserved, receiver, false;
    var todo := items.Keys;
    PartEnds(items);
    BagStart(inventory);
    BagStart(reserved);
    BagStart(receiver);
    while todo != {}
      invariant todo <= items.Keys
      invariant held == Drain(inventory, Part(items, todo))
      invariant kept == if unreserve then Drain(reserved, Part(items, todo)) else reserved
      invariant got == Fill(receiver, Part(items, todo))
      invariant moved <==> exists i :: i in items && i !in todo && items[i] > 0
      decreases todo
    {
      var i :| i in todo;
      var n := items[i];
      PartGrows(items, todo, i);
      DrainStep(inventory, Part(items, todo), i, n);
      DrainStep(reserved, Part(items, todo), i, n);
      FillStep(receiver, Part(items, todo), i, n);
      if n > 0 {
        if unreserve {
          kept := SubOne(kept, i, n);
        }
        held := SubOne(held, i, n);
        got := AddOne(got, i, n);
        moved := true;
      }
      todo := todo - {i};
    }
  }

  // ----- request maps

  method StacksToMap(stacks: seq<Stack>) returns (b: Bag)
    ensures b == StacksToBag(stacks)
  {
    b := map[];
    for k := 0 to |stacks|
      invariant b == StacksToBag(stacks[..k])
    {
      assert stacks[..k + 1][..k] == stacks[..k];
      if stacks[k].item != "" && stacks[k].count > 0 {
        b := b[stacks[k].item := Count(b, stacks[k].item) + stacks[k].count];
      }
    }
    assert stacks[..|stacks|] == stacks;
  }

  method ScaledDeposit(base: Bag, multiplier: int) returns (r: Bag)
    ensures r == ScaleDeposit(base, multiplier)
  {
    r := map[];
    var todo := base.Keys;
    while todo != {}
      invariant todo <= base.Keys
      invariant r == ScaleDeposit(Part(base, todo), multiplier)
      decreases todo
    {
      var i :| i in todo;
      PartGrows(base, todo, i);
      if i != "" && base[i] > 0 {
        r := r[i := ScaledAmount(base[i], multiplier)];
      }
      assert r == ScaleDeposit(Part(base, todo)[i := base[i]], multiplier);
      todo := todo - {i};
    }
    PartEnds(base);
  }

  // ----- looking through item maps

  method HasItems(inventory: Bag, wanted: Bag) returns (ok: bool)
    ensures ok <==> Covers(inventory, wanted)
  {
    var todo := wanted.Keys;
    while todo != {}
      invariant todo <= wanted.Keys
      invariant forall i :: i in wanted && i !in todo ==> wanted[i] <= Count(inventory, i)
      decreases todo
    {
      var i :| i in todo;
      if Count(inventory, i) < wanted[i] {
        return false;
      }
      todo := todo - {i};
    }
    return true;
  }

  method HasAll(requirements: Bag, c: Container) returns (ok: bool)
    ensures ok <==> HasAvailable(requirements, c)
  {
    var todo := requirements.Keys;
    while todo != {}
      invariant todo <= requirements.Keys
      invariant forall i :: i in requirements && i !in todo ==> requirements[i] <= c.Available(i)
      decreases todo
    {
      var i :| i in todo;
      if c.Available(i) < requirements[i] {
        return false;
      }
      todo := todo - {i};
    }
    return true;
  }

  method CopyPositive(b: Bag) returns (r: Bag)
    ensures r == Luggage(b)
  {
    r := map[];
    var todo := b.Keys;
    while todo != {}
      invariant todo <= b.Keys
      invariant r == Luggage(Part(b, todo))
      decreases todo
    {
      var i :| i in todo;
      PartGrows(b, todo, i);
      if i != "" && b[i] > 0 {
        r := r[i := b[i]];
      }
      assert r == Luggage(Part(b, todo)[i := b[i]]);
      todo := todo - {i};
    }
    PartEnds(b);
  }

  class World {
    var agents: map<AgentId, Agent>
    const belts: BeltWorld
    var contracts: map<ContractId, Contract>
    var nextContract: nat

    constructor (containers: map<Pos, Container>, agents: map<AgentId, Agent>)
      ensures fresh(belts) && fresh(belts.store)
      ensures View() == State(agents, Belts(containers, Store(map[], map[], 0)), map[], 0)
    {
      this.agents, contracts, nextContract := agents, map[], 0;
      belts := new BeltWorld(containers);
    }

    function View(): State
      reads this, belts, belts.store
    {
      State(agents, belts.View(), contracts, nextContract)
    }

    method PayIn(who: AgentId, p: Pos, items: Bag)
      requires who in agents && p in belts.containers && Positive(items)
      modifies this`agents, belts`containers
      ensures View() == Deposited(old(View()), who, p, items)
    {
      var a, c := agents[who], belts.containers[p];
      var left, held, kept := EscrowItems(a.inventory, c.inventory, c.reserved, items);
      agents := agents[who := a.(inventory := left)];
      belts.containers := belts.containers[p := c.(inventory := held, reserved := kept)];
    }

    method MoveOut(p: Pos, items: Bag, dest: Dest, unreserve: bool)
      requires p in belts.containers && (dest.ToAgent? ==> dest.id in agents)
      modifies this`agents, belts`containers
      ensures View() == MovedOut(old(View()), p, items, dest, unreserve)
    {
      var c := belts.containers[p];
      var receiver := if dest.ToAgent? then agents[dest.id].inventory else OwedTo(c, dest.id);
      var held, kept, got, moved := TransferItems(c.inventory, c.reserved, receiver, items, unreserve);
      c := c.(inventory := held, reserved := kept);
      if dest.ToAgent? {
        agents := agents[dest.id := agents[dest.id].(inventory := got)];
      } else if moved {
        c := c.(owed := c.owed[dest.id := got]);
      }
      belts.containers := belts.containers[p := c];
    }

    method ApplyTerminalTransfer(p: Pos, items: Bag, to: AgentId, unreserve: bool)
      requires p in belts.containers
      modifies this`agents, belts`containers
      ensures View() == Paid(old(View()), p, items, to, unreserve)
    {
      if items == map[] || to == "" {
        return;
      }
      MoveOut(p, items, if to in agents then ToAgent(to) else ToOwed(to), unreserve);
    }

    method ValidatePost(who: AgentId, r: PostRequest, requirements: Bag, reward: Bag) returns (code: Code)
      requires who in agents && requirements == StacksToBag(r.requirements) && reward == StacksToBag(r.reward)
      ensures code == PostCheck(View(), who, r)
    {
      if r.terminal.None? {
        return BadRequest;
      }
      var p := r.terminal.value;
      if p !in belts.containers || belts.containers[p].kind != CONTRACT_TERMINAL {
        return InvalidTarget;
      }
      if Manhattan(agents[who].pos, p) > 3 {
        return Blocked;
      }
      if r.kind.None? || reward == map[] || (r.kind.value != Build && requirements == map[]) {
        return BadRequest;
      }
      if r.kind.value == Build && r.blueprint == "" {
        return BadRequest;
      }
      var enough := HasItems(agents[who].inventory, reward);
      return if enough then Done else NoResource;
    }

    method HandlePostContract(who: AgentId, r: PostRequest, now: nat, dayTicks: int) returns (code: Code)
      requires who in agents
      modifies this, belts`containers
      ensures code == PostCheck(old(View()), who, r)
      ensures View() == Posted(old(View()), who, r, now, dayTicks)
    {
      var requirements := StacksToMap(r.requirements);
      var reward := StacksToMap(r.reward);
      var deposit := StacksToMap(r.deposit);
      code := ValidatePost(who, r, requirements, reward);
      if code != Done {
        return;
      }
      OpenContract(who, Contract(r.terminal.value, who, "", r.kind.value, requirements, reward, deposit,
                                 BuildDeadline(now, r.deadline, r.duration, dayTicks), Open));
    }

    method OpenContract(who: AgentId, c: Contract)
      requires who in agents && c.terminal in belts.containers && Positive(c.reward)
      modifies this, belts`containers
      ensures View() == Opened(old(View()), who, c)
    {
      PayIn(who, c.terminal, c.reward);
      nextContract := nextContract + 1;
      contracts := contracts[nextContract := c];
    }

    /** The common part of accepting and submitting: the terminal is the contract's, near, and in time. */
    method CheckTerminal(who: AgentId, c: Contract, p: Pos, now: nat) returns (code: Code)
      requires who in agents
      ensures code == if !IsTerminal(View(), p) || p != c.terminal then InvalidTarget
                      else if Manhattan(agents[who].pos, p) > 3 then Blocked
                      else if now > c.deadline then Conflict
                      else Done
    {
      if p !in belts.containers || belts.containers[p].kind != CONTRACT_TERMINAL || p != c.terminal {
        return InvalidTarget;
      }
      if Manhattan(agents[who].pos, p) > 3 {
        return Blocked;
      }
      return if now > c.deadline then Conflict else Done;
    }

    method ValidateAccept(who: AgentId, cid: Option<ContractId>, at: Option<Pos>, now: nat, multiplier: int)
      returns (code: Code, required: Bag)
      requires who in agents
      ensures code == AcceptCheck(View(), who, cid, at, now, multiplier)
      ensures code == Done ==> required == ScaleDeposit(contracts[cid.value].deposit, multiplier)
    {
      required := map[];
      if cid.None? || at.None? {
        return BadRequest, required;
      }
      if cid.value !in contracts {
        return InvalidTarget, required;
      }
      var c := contracts[cid.value];
      required := ScaledDeposit(c.deposit, multiplier);
      var enough := HasItems(agents[who].inventory, required);
      if c.status != Open {
        return Conflict, required;
      }
      code := CheckTerminal(who, c, at.value, now);
      if code == Done && !enough {
        code := NoResource;
      }
    }

    method HandleAcceptContract(who: AgentId, cid: Option<ContractId>, at: Option<Pos>, now: nat, multiplier: int)
      returns (code: Code)
      requires who in agents
      modifies this, belts`containers
      ensures code == AcceptCheck(old(View()), who, cid, at, now, multiplier)
      ensures View() == AcceptedBy(old(View()), who, cid, at, now, multiplier)
    {
      var required;
      code, required := ValidateAccept(who, cid, at, now, multiplier);
      if code != Done {
        return;
      }
      var c := contracts[cid.value];
      PayIn(who, at.value, required);
      contracts := contracts[cid.value := c.(deposit := required, acceptor := who, status := Accepted)];
    }

    method ValidateSubmit(who: AgentId, cid: Option<ContractId>, at: Option<Pos>, now: nat, built: bool)
      returns (code: Code)
      requires who in agents
      ensures code == SubmitCheck(View(), who, cid, at, now, built)
    {
      if cid.None? || at.None? {
        return BadRequest;
      }
      if cid.value !in contracts {
        return InvalidTarget;
      }
      var c := contracts[cid.value];
      if c.status != Accepted || c.acceptor != who {
        return NoPermission;
      }
      code := CheckTerminal(who, c, at.value, now);
      if code == Done {
        var ready := built;
        if c.kind != Build {
          ready := HasAll(c.requirements, belts.containers[at.value]);
        }
        if !ready {
          code := Blocked;
        }
      }
    }

    method HandleSubmitContract(who: AgentId, cid: Option<ContractId>, at: Option<Pos>, now: nat, built: bool)
      returns (code: Code)
      requires who in agents
      modifies this, belts`containers
      ensures code == SubmitCheck(old(View()), who, cid, at, now, built)
      ensures View() == Submitted(old(View()), who, cid, at, now, built)
    {
      code := ValidateSubmit(who, cid, at, now, built);
      if code != Done {
        return;
      }
      var c := contracts[cid.value];
      if c.kind == Gather || c.kind == Deliver {
        MoveOut(at.value, c.requirements, ToOwed(c.poster), false);
      }
      MoveOut(at.value, c.reward, ToAgent(who), true);
      MoveOut(at.value, c.deposit, ToAgent(who), true);
      contracts := contracts[cid.value := c.(status := Completed)];
    }

    method HandleClaimOwed(who: AgentId, at: Option<Pos>) returns (code: Code)
      requires who in agents
      modifies this`agents, belts`containers
      ensures code == ClaimCheck(old(View()), who, at)
      ensures View() == Claimed(old(View()), who, at)
    {
      if at.None? {
        return BadRequest;
      }
      if at.value !in belts.containers {
        return InvalidTarget;
      }
      if Manhattan(agents[who].pos, at.value) > 3 {
        return Blocked;
      }
      code := Done;
      var c := belts.containers[at.value];
      var owed := OwedTo(c, who);
      belts.containers := belts.containers[at.value := c.(owed := c.owed - {who})];
      var _, _, got, _ := TransferItems(map[], map[], agents[who].inventory, owed, false);
      agents := agents[who := agents[who].(inventory := got)];
    }

    /** Takes an agent out of the world, with what it carries; None when it is not there. */
    method HandleTransferOut(who: AgentId) returns (carried: Option<Bag>)
      modifies this`agents
      ensures View() == Departed(old(View()), who)
      ensures carried == if who in old(agents) then Some(Luggage(old(agents)[who].inventory)) else None
    {
      if who !in agents {
        assert agents - {who} == agents;
        return None;
      }
      var luggage := CopyPositive(agents[who].inventory);
      agents := agents - {who};
      return Some(luggage);
    }

    method HandleTransferIn(who: AgentId, at: Pos, carried: Bag) returns (ok: bool)
      modifies this`agents
      ensures View() == Arrived(old(View()), who, at, carried)
      ensures ok <==> Admits(old(View()), who)
    {
      if who == "" || who in agents {
        return false;
      }
      var inventory := CopyPositive(carried);
      agents := agents[who := Agent(Pos(at.x, 0, at.z), inventory)];
      return true;
    }

    /** What the settler decides about one contract. */
    method Decide(cid: ContractId, now: nat, built: bool) returns (d: Decision)
      requires cid in contracts
      ensures d == DecisionFor(View(), cid, now, built)
    {
      var c := contracts[cid];
      var hasTerminal := c.terminal in belts.containers;
      var ready := false;
      if hasTerminal {
        ready := HasAll(c.requirements, belts.containers[c.terminal]);
      }
      d := DecideTick(c, now, hasTerminal, ready, built);
    }

    method Settle(cid: ContractId, now: nat, built: bool)
      requires cid in contracts
      modifies this, belts`containers
      ensures View() == Settled(old(View()), cid, now, built)
    {
      var c := contracts[cid];
      var d := Decide(cid, now, built);
      if d == Noop {
        return;
      }
      var plan := PlanSettlement(d);
      if d == FailMissingTarget {
        contracts := contracts[cid := c.(status := Failed)];
        return;
      }
      if plan.consume {
        ApplyTerminalTransfer(c.terminal, c.requirements, c.poster, false);
      }
      if plan.rewardTo != Nobody {
        ApplyTerminalTransfer(c.terminal, c.reward, PayoutAgent(c, plan.rewardTo), true);
      }
      if plan.depositTo != Nobody {
        ApplyTerminalTransfer(c.terminal, c.deposit, PayoutAgent(c, plan.depositTo), true);
      }
      contracts := contracts[cid := c.(status := plan.status)];
    }

    /** One settler tick. The walk order is returned for the specification; nothing is assumed of it
        beyond naming every contract once. */
    method TickContracts(now: nat, built: set<ContractId>) returns (ghost order: seq<ContractId>)
      modifies this, belts`containers
      ensures Lists(order, old(contracts).Keys)
      ensures View() == SettledAll(old(View()), order, now, built)
    {
      order := [];
      ghost var start := View();
      var todo := contracts.Keys;
      while todo != {}
        invariant todo <= start.contracts.Keys == contracts.Keys
        invariant Lists(order, start.contracts.Keys - todo)
        invariant View() == SettledAll(start, order, now, built)
        decreases todo
      {
        var cid :| cid in todo;
        ListsMore(order, start.contracts.Keys - todo, cid);
        SettleLast(start, order, now, built, cid);
        Settle(cid, now, cid in built);
        order := order + [cid];
        todo := todo - {cid};
      }
      assert start.contracts.Keys - todo == start.contracts.Keys;
    }
  }
}
