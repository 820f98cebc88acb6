/** Contracts and the escrow held for them in terminals: what every handler computes. */
module Escrow {
  import opened Common
  import opened Bags
  import opened DroppedItems
  import opened Conveyor

  type ContractId = nat
  datatype Kind = Gather | Deliver | Build
  datatype Status = Open | Accepted | Completed | Failed
  datatype Stack = Stack(item: Item, count: int)
  datatype Code = Done | BadRequest | InvalidTarget | Blocked | NoResource | Conflict | NoPermission

  datatype Agent = Agent(pos: Pos, inventory: Bag)

  datatype Contract = Contract(
    terminal: Pos, poster: AgentId, acceptor: AgentId, kind: Kind,
    requirements: Bag, reward: Bag, deposit: Bag, deadline: nat, status: Status)
  {
    predicate Live() {
      status == Open || status == Accepted
    }
  }

  datatype State = State(
    agents: map<AgentId, Agent>, belts: Belts, contracts: map<ContractId, Contract>, next: nat)

  const CONTRACT_TERMINAL := "CONTRACT_TERMINAL"

  // ----- requests

  function StacksToBag(stacks: seq<Stack>): (b: Bag)
    ensures Positive(b)
  {
    if stacks == [] then map[]
    else
      var last := stacks[|stacks| - 1];
      var b := StacksToBag(stacks[..|stacks| - 1]);
      if last.item == "" || last.count <= 0 then b else b[last.item := Count(b, last.item) + last.count]
  }

  /** A request names its terminal and contract by id; an absent value stands for a blank id. */
  datatype PostRequest = PostRequest(
    terminal: Option<Pos>, kind: Option<Kind>, requirements: seq<Stack>, reward: seq<Stack>,
    deposit: seq<Stack>, blueprint: string, deadline: nat, duration: int)

  function BuildDeadline(now: nat, explicit: nat, duration: int, dayTicks: int): nat {
    if explicit != 0 then explicit
    else
      var dur := if duration <= 0 then dayTicks else duration;
      now + if dur < 0 then 0 else dur
  }

  function ScaledAmount(n: int, multiplier: int): (r: int)
    requires n > 0
    ensures r >= n
  {
    if multiplier <= 1 then n else n * multiplier
  }

  function ScaleDeposit(base: Bag, multiplier: int): (r: Bag)
    ensures Positive(r)
  {
    map i | i in base && i != "" && base[i] > 0 :: ScaledAmount(base[i], multiplier)
  }

  predicate IsTerminal(s: State, p: Pos) {
    p in s.belts.containers && s.belts.containers[p].kind == CONTRACT_TERMINAL
  }

  predicate HasAvailable(requirements: Bag, c: Container) {
    forall i :: i in requirements ==> requirements[i] <= c.Available(i)
  }

  // ----- validation, in the order of the handlers

  function PostCheck(s: State, who: AgentId, r: PostRequest): Code
    requires who in s.agents
  {
    if r.terminal.None? then BadRequest
    else if !IsTerminal(s, r.terminal.value) then InvalidTarget
    else if Manhattan(s.agents[who].pos, r.terminal.value) > 3 then Blocked
    else if r.kind.None? then BadRequest
    else if StacksToBag(r.reward) == map[] then BadRequest
    else if r.kind.value != Build && StacksToBag(r.requirements) == map[] then BadRequest
    else if r.kind.value == Build && r.blueprint == "" then BadRequest
    else if !Covers(s.agents[who].inventory, StacksToBag(r.reward)) then NoResource
    else Done
  }

  function AcceptCheck(s: State, who: AgentId, cid: Option<ContractId>, at: Option<Pos>, now: nat,
                       multiplier: int): Code
    requires who in s.agents
  {
    if cid.None? || at.None? then BadRequest
    else if cid.value !in s.contracts then InvalidTarget
    else
      var c := s.contracts[cid.value];
      if c.status != Open then Conflict
      else if !IsTerminal(s, at.value) || at.value != c.terminal then InvalidTarget
      else if Manhattan(s.agents[who].pos, at.value) > 3 then Blocked
      else if now > c.deadline then Conflict
      else if !Covers(s.agents[who].inventory, ScaleDeposit(c.deposit, multiplier)) then NoResource
      else Done
  }

  function SubmitCheck(s: State, who: AgentId, cid: Option<ContractId>, at: Option<Pos>, now: nat, built: bool): Code
    requires who in s.agents
  {
    if cid.None? || at.None? then BadRequest
    else if cid.value !in s.contracts then InvalidTarget
    else
      var c := s.contracts[cid.value];
      if c.status != Accepted || c.acceptor != who then NoPermission
      else if !IsTerminal(s, at.value) || at.value != c.terminal then InvalidTarget
      else if Manhattan(s.agents[who].pos, at.value) > 3 then Blocked
      else if now > c.deadline then Conflict
      else if !(if c.kind == Build then built else HasAvailable(c.requirements, s.belts.containers[at.value]))
        then Blocked
      else Done
  }

  function ClaimCheck(s: State, who: AgentId, at: Option<Pos>): Code
    requires who in s.agents
  {
    if at.None? then BadRequest
    else if at.value !in s.belts.containers then InvalidTarget
    else if Manhattan(s.agents[who].pos, at.value) > 3 then Blocked
    else Done
  }

  // ----- moving items

  datatype Dest = ToAgent(id: AgentId) | ToOwed(id: AgentId)

  function SetContainer(s: State, p: Pos, c: Container): State {
    s.(belts := s.belts.(containers := s.belts.containers[p := c]))
  }

  function AddOwed(owed: map<AgentId, Bag>, id: AgentId, items: Bag): map<AgentId, Bag> {
    if exists i :: i in items && items[i] > 0
    then owed[id := Fill(if id in owed then owed[id] else map[], items)]
    else owed
  }

  /** An agent pays into a terminal's escrow. */
  function Deposited(s: State, who: AgentId, p: Pos, items: Bag): State
    requires who in s.agents && p in s.belts.containers
  {
    var a, c := s.agents[who], s.belts.containers[p];
    SetContainer(s, p, c.(inventory := Fill(c.inventory, items), reserved := Fill(c.reserved, items)))
    .(agents := s.agents[who := a.(inventory := Take(a.inventory, items))])
  }

  /** A terminal hands items out, releasing the reservation if asked to. */
  function MovedOut(s: State, p: Pos, items: Bag, dest: Dest, unreserve: bool): State
    requires p in s.belts.containers && (dest.ToAgent? ==> dest.id in s.agents)
  {
    var c := s.belts.containers[p];
    var c' := c.(inventory := Drain(c.inventory, items),
                 reserved := if unreserve then Drain(c.reserved, items) else c.reserved);
    match dest
    case ToAgent(id) =>
      var a := s.agents[id];
      SetContainer(s, p, c').(agents := s.agents[id := a.(inventory := Fill(a.inventory, items))])
    case ToOwed(id) =>
      SetContainer(s, p, c'.(owed := AddOwed(c.owed, id, items)))
  }

  /** The tick's payout: to the agent's inventory, or to the debts when the agent is gone. */
  function Paid(s: State, p: Pos, items: Bag, to: AgentId, unreserve: bool): State
    requires p in s.belts.containers
  {
    if items == map[] || to == "" then s
    else MovedOut(s, p, items, if to in s.agents then ToAgent(to) else ToOwed(to), unreserve)
  }

  // ----- player steps

  function NewContract(who: AgentId, r: PostRequest, now: nat, dayTicks: int): Contract
    requires r.terminal.Some? && r.kind.Some?
  {
    Contract(r.terminal.value, who, "", r.kind.value, StacksToBag(r.requirements), StacksToBag(r.reward),
             StacksToBag(r.deposit), BuildDeadline(now, r.deadline, r.duration, dayTicks), Open)
  }

  function Opened(s: State, who: AgentId, c: Contract): State
    requires who in s.agents && c.terminal in s.belts.containers
  {
    Deposited(s, who, c.terminal, c.reward).(contracts := s.contracts[s.next + 1 := c], next := s.next + 1)
  }

  function Posted(s: State, who: AgentId, r: PostRequest, now: nat, dayTicks: int): State
    requires who in s.agents
  {
    if PostCheck(s, who, r) != Done then s else Opened(s, who, NewContract(who, r, now, dayTicks))
  }

  function TakenUp(s: State, who: AgentId, cid: ContractId, required: Bag): State
    requires who in s.agents && cid in s.contracts && s.contracts[cid].terminal in s.belts.containers
  {
    var c := s.contracts[cid];
    Deposited(s, who, c.terminal, required)
    .(contracts := s.contracts[cid := c.(deposit := required, acceptor := who, status := Accepted)])
  }

  function AcceptedBy(s: State, who: AgentId, cid: Option<ContractId>, at: Option<Pos>, now: nat,
                      multiplier: int): State
    requires who in s.agents
  {
    if AcceptCheck(s, who, cid, at, now, multiplier) != Done then s
    else TakenUp(s, who, cid.value, ScaleDeposit(s.contracts[cid.value].deposit, multiplier))
  }

  function Delivered(s: State, cid: ContractId, requirementsTo: Dest, acceptor: AgentId): State
    requires cid in s.contracts && s.contracts[cid].terminal in s.belts.containers
    requires acceptor in s.agents && (requirementsTo.ToAgent? ==> requirementsTo.id in s.agents)
  {
    var c := s.contracts[cid];
    var p := c.terminal;
    var s1 := if c.kind == Build then s else MovedOut(s, p, c.requirements, requirementsTo, false);
    var s2 := MovedOut(s1, p, c.reward, ToAgent(acceptor), true);
    var s3 := MovedOut(s2, p, c.deposit, ToAgent(acceptor), true);
    s3.(contracts := s.contracts[cid := c.(status := Completed)])
  }

  function Submitted(s: State, who: AgentId, cid: Option<ContractId>, at: Option<Pos>, now: nat, built: bool): State
    requires who in s.agents
  {
    if SubmitCheck(s, who, cid, at, now, built) != Done then s
    else Delivered(s, cid.value, ToOwed(s.contracts[cid.value].poster), who)
  }

  function OwedTo(c: Container, who: AgentId): Bag {
    if who in c.owed then c.owed[who] else map[]
  }

  function Collected(s: State, who: AgentId, p: Pos): State
    requires who in s.agents && p in s.belts.containers
  {
    var a, c := s.agents[who], s.belts.containers[p];
    SetContainer(s, p, c.(owed := c.owed - {who}))
    .(agents := s.agents[who := a.(inventory := Fill(a.inventory, OwedTo(c, who)))])
  }

  function Claimed(s: State, who: AgentId, at: Option<Pos>): State
    requires who in s.agents
  {
    if ClaimCheck(s, who, at) != Done then s else Collected(s, who, at.value)
  }

  // ----- agents coming and going

  /** What an id has in hand, nothing when it is not there. */
  function Hand(s: State, x: AgentId, i: Item): int {
    if x in s.agents then Count(s.agents[x].inventory, i) else 0
  }

  /** What a traveller carries from world to world: the named items it has some of. */
  function Luggage(b: Bag): (r: Bag)
    ensures Positive(r)
  {
    map i | i in b && i != "" && b[i] > 0 :: b[i]
  }

  function Departed(s: State, who: AgentId): State {
    s.(agents := s.agents - {who})
  }

  predicate Admits(s: State, who: AgentId) {
    who != "" && who !in s.agents
  }

  /** A traveller without id or already present is turned away. */
  function Arrived(s: State, who: AgentId, at: Pos, carried: Bag): State {
    if !Admits(s, who) then s
    else s.(agents := s.agents[who := Agent(Pos(at.x, 0, at.z), Luggage(carried))])
  }

  // ----- the per-tick settler

  datatype Decision = Noop | FailMissingTarget | ExpireOpen | TimeoutAccepted | CompleteDeliver | CompleteBuild

  function DecideTick(c: Contract, now: nat, hasTerminal: bool, requirementsOK: bool, built: bool): Decision {
    if !c.Live() then Noop
    else if !hasTerminal then FailMissingTarget
    else if c.status == Open then (if now > c.deadline then ExpireOpen else Noop)
    else if now > c.deadline then TimeoutAccepted
    else if c.kind == Build then (if built then CompleteBuild else Noop)
    else if requirementsOK then CompleteDeliver
    else Noop
  }

  datatype Target = Nobody | Poster | Acceptor
  datatype Plan = Plan(status: Status, consume: bool, rewardTo: Target, depositTo: Target)

  function PlanSettlement(d: Decision): Plan
    requires d != Noop
  {
    match d
    case FailMissingTarget => Plan(Failed, false, Nobody, Nobody)
    case ExpireOpen => Plan(Failed, false, Poster, Nobody)
    case TimeoutAccepted => Plan(Failed, false, Poster, Poster)
    case CompleteDeliver => Plan(Completed, true, Acceptor, Acceptor)
    case CompleteBuild => Plan(Completed, false, Acceptor, Acceptor)
  }

  function PayoutAgent(c: Contract, t: Target): AgentId {
    match t
    case Nobody => ""
    case Poster => c.poster
    case Acceptor => c.acceptor
  }

  function DecisionFor(s: State, cid: ContractId, now: nat, built: bool): Decision
    requires cid in s.contracts
  {
    var c := s.contracts[cid];
    var hasTerminal := c.terminal in s.belts.containers;
    DecideTick(c, now, hasTerminal, hasTerminal && HasAvailable(c.requirements, s.belts.containers[c.terminal]), built)
  }

  function Carried(s: State, cid: ContractId, plan: Plan): State
    requires cid in s.contracts && s.contracts[cid].terminal in s.belts.containers
  {
    var c := s.contracts[cid];
    var p := c.terminal;
    var s1 := if plan.consume then Paid(s, p, c.requirements, c.poster, false) else s;
    var s2 := Paid(s1, p, c.reward, PayoutAgent(c, plan.rewardTo), true);
    var s3 := if plan.depositTo == Nobody then s2 else Paid(s2, p, c.deposit, PayoutAgent(c, plan.depositTo), true);
    s3.(contracts := s.contracts[cid := c.(status := plan.status)])
  }

  function Settled(s: State, cid: ContractId, now: nat, built: bool): State
    requires cid in s.contracts
  {
    var d := DecisionFor(s, cid, now, built);
    if d == Noop then s
    else if d == FailMissingTarget then s.(contracts := s.contracts[cid := s.contracts[cid].(status := Failed)])
    else Carried(s, cid, PlanSettlement(d))
  }

  /** The settler walks the contracts in an order nobody controls; `built` holds the contracts whose
      blueprint stands and is stable. */
  function SettledAll(s: State, order: seq<ContractId>, now: nat, built: set<ContractId>): State
    requires forall cid :: cid in order ==> cid in s.contracts
    ensures SettledAll(s, order, now, built).contracts.Keys == s.contracts.Keys
    decreases |order|
  {
    if order == [] then s
    else
      var s1 := Settled(s, order[0], now, order[0] in built);
      assert s1.contracts.Keys == s.contracts.Keys;
      SettledAll(s1, order[1..], now, built)
  }

  lemma {:induction false} SettleLast(s: State, order: seq<ContractId>, now: nat, built: set<ContractId>,
                                      cid: ContractId)
    requires (forall k :: k in order ==> k in s.contracts) && cid in s.contracts
    ensures SettledAll(s, order + [cid], now, built)
              == Settled(SettledAll(s, order, now, built), cid, now, cid in built)
    decreases |order|
  {
    if order == [] {
      assert (order + [cid])[1..] == [];
    } else {
      assert (order + [cid])[1..] == order[1..] + [cid];
      var s1 := Settled(s, order[0], now, order[0] in built);
      assert s1.contracts.Keys == s.contracts.Keys;
      SettleLast(s1, order[1..], now, built, cid);
    }
  }

  // ----- the invariant

  /** What a live contract keeps in escrow at `p`. */
  function Stake(c: Contract, p: Pos, i: Item): int {
    if !c.Live() || c.terminal != p then 0
    else Amount(c.reward, i) + if c.status == Accepted then Amount(c.deposit, i) else 0
  }

  ghost function Stakes(contracts: map<ContractId, Contract>, p: Pos, i: Item): map<ContractId, int> {
    map cid | cid in contracts :: Stake(contracts[cid], p, i)
  }

  ghost function Escrowed(contracts: map<ContractId, Contract>, p: Pos, i: Item): int {
    SumMap(Stakes(contracts, p, i))
  }

  ghost predicate WellFormed(s: State, c: Contract) {
    && Positive(c.requirements) && Positive(c.reward) && Positive(c.deposit)
    && c.poster != ""
    && (c.status == Accepted ==> c.acceptor != "")
    && (c.Live() ==> c.terminal in s.belts.containers)
  }

  ghost predicate WellFormedAll(s: State) {
    && (forall cid :: cid in s.contracts ==> cid <= s.next && WellFormed(s, s.contracts[cid]))
    && "" !in s.agents
  }

  ghost predicate Solvent(s: State) {
    forall p, i :: p in s.belts.containers ==>
      Count(s.belts.containers[p].reserved, i) == Escrowed(s.contracts, p, i)
  }

  ghost predicate NoDebt(owed: map<AgentId, Bag>) {
    forall a :: a in owed ==> NonNegative(owed[a])
  }

  ghost predicate NoDebtors(s: State) {
    && (forall a :: a in s.agents ==> NonNegative(s.agents[a].inventory))
    && (forall p :: p in s.belts.containers ==> NoDebt(s.belts.containers[p].owed))
  }

  /** Reservations are exactly the stakes of the live contracts, stock covers them, nobody holds a
      negative amount, and the dropped items agree with their index. */
  ghost predicate Good(s: State) {
    Sound(s.belts) && WellFormedAll(s) && Solvent(s) && NoDebtors(s)
  }

  ghost function Purses(agents: map<AgentId, Agent>, i: Item): map<AgentId, int> {
    map a | a in agents :: Count(agents[a].inventory, i)
  }

  /** All of one item: agents, containers, debts and the floor. */
  ghost function Wealth(s: State, i: Item): int {
    SumMap(Purses(s.agents, i)) + Stock(s.belts, i)
  }
}
