/** Organisations: who belongs to what, who leads, and where the treasury's items go. */
module Organizations {
  import opened Common
  import opened Bags

  type OrgId = nat
  datatype Role = Leader | Officer | Member
  datatype Org = Org(members: map<AgentId, Role>, meta: nat, treasury: Bag)
  datatype Person = Person(org: Option<OrgId>, inventory: Bag)
  /** `last` is the counter behind fresh organisation ids. */
  datatype State = State(orgs: map<OrgId, Org>, people: map<AgentId, Person>, last: nat)
  datatype Code = Done | BadRequest | InvalidTarget | Conflict | NoPermission | NoResource | Blocked

  /** A request by `who`. A missing organisation id is None; `named` says the item id is not blank. */
  datatype Request =
    | Create(kindOk: bool, nameOk: bool)
    | Join(org: Option<OrgId>)
    | Leave
    | Deposit(org: Option<OrgId>, item: Item, named: bool, count: int)
    | Withdraw(org: Option<OrgId>, item: Item, named: bool, count: int)

  // ----- what the handlers compute

  predicate IsMember(s: State, a: AgentId, o: OrgId) {
    o in s.orgs && a in s.orgs[o].members
  }

  predicate IsAdmin(s: State, a: AgentId, o: OrgId) {
    IsMember(s, a, o) && s.orgs[o].members[a] in {Leader, Officer}
  }

  predicate TransferInputOk(org: Option<OrgId>, named: bool, count: int) {
    org.Some? && named && count > 0
  }

  ghost function Check(s: State, who: AgentId, q: Request): Code
    requires who in s.people
  {
    match q
    case Create(kindOk, nameOk) =>
      if !kindOk || !nameOk then BadRequest else if s.people[who].org.Some? then Conflict else Done
    case Join(org) =>
      if org.None? then BadRequest else if org.value !in s.orgs then InvalidTarget
      else if s.people[who].org.Some? then Conflict else Done
    case Leave =>
      if s.people[who].org.None? then Blocked else Done
    case Deposit(org, item, named, count) =>
      if !TransferInputOk(org, named, count) then BadRequest else if org.value !in s.orgs then InvalidTarget
      else if !IsMember(s, who, org.value) then NoPermission
      else if Count(s.people[who].inventory, item) < count then NoResource else Done
    case Withdraw(org, item, named, count) =>
      if !TransferInputOk(org, named, count) then BadRequest else if org.value !in s.orgs then InvalidTarget
      else if !IsAdmin(s, who, org.value) then NoPermission
      else if Count(s.orgs[org.value].treasury, item) < count then NoResource else Done
  }

  function Moved(s: State, who: AgentId, org: Option<OrgId>): map<AgentId, Person>
    requires who in s.people
  {
    s.people[who := s.people[who].(org := org)]
  }

  /** What is left of an organisation with other members once `who` has gone: a leader is succeeded by the
      smallest remaining id. */
  ghost function Bereft(o: Org, who: AgentId): Org
    requires (o.members - {who}).Keys != {}
  {
    var rest := o.members - {who};
    var heir := Least(rest.Keys);
    if who in o.members && o.members[who] == Leader && heir != ""
    then o.(members := rest[heir := Leader], meta := o.meta + 2)
    else o.(members := rest, meta := o.meta + 1)
  }

  ghost function Left(s: State, who: AgentId): State
    requires who in s.people && s.people[who].org.Some?
  {
    var id := s.people[who].org.value;
    var t := s.(people := Moved(s, who, None));
    if id !in s.orgs then t
    else if (s.orgs[id].members - {who}).Keys == {} then t.(orgs := s.orgs - {id})
    else t.(orgs := s.orgs[id := Bereft(s.orgs[id], who)])
  }

  function Funded(o: Org, treasury: Bag): Org {
    o.(treasury := treasury)
  }

  function Holding(p: Person, inventory: Bag): Person {
    p.(inventory := inventory)
  }

  /** The state after the request; refused requests change nothing. */
  ghost function Next(s: State, who: AgentId, q: Request): State
    requires who in s.people
  {
    if Check(s, who, q) != Done then s
    else match q
      case Create(_, _) =>
        State(s.orgs[s.last + 1 := Org(map[who := Leader], 1, map[])], Moved(s, who, Some(s.last + 1)), s.last + 1)
      case Join(org) =>
        var o := s.orgs[org.value];
        s.(orgs := s.orgs[org.value := o.(members := o.members[who := Member], meta := o.meta + 1)],
          people := Moved(s, who, org))
      case Leave =>
        Left(s, who)
      case Deposit(org, item, _, count) =>
        s.(orgs := s.orgs[org.value := Funded(s.orgs[org.value], Fill(s.orgs[org.value].treasury, map[item := count]))],
           people := s.people[who := Holding(s.people[who], Drain(s.people[who].inventory, map[item := count]))])
      case Withdraw(org, item, _, count) =>
        s.(orgs := s.orgs[org.value :=
             Funded(s.orgs[org.value], Drain(s.orgs[org.value].treasury, map[item := count]))],
           people := s.people[who := Holding(s.people[who], Fill(s.people[who].inventory, map[item := count]))])
  }

  // ----- the invariant

  ghost predicate LedBy(o: Org, l: AgentId) {
    forall a :: a in o.members ==> (o.members[a] == Leader <==> a == l)
  }

  /** Non-empty, with exactly one leader. */
  ghost predicate HasOneLeader(o: Org) {
    exists l :: l in o.members && LedBy(o, l)
  }

  ghost predicate BelongsTo(s: State, a: AgentId, o: OrgId) {
    a in s.people && s.people[a].org == Some(o)
  }

  ghost predicate Led(s: State) {
    forall o :: o in s.orgs ==> HasOneLeader(s.orgs[o])
  }

  /** Membership seen from the organisation and from the agent agree, and no agent names a missing one. */
  ghost predicate Agreed(s: State) {
    && (forall o, a :: o in s.orgs ==> (a in s.orgs[o].members <==> BelongsTo(s, a, o)))
    && (forall a :: a in s.people && s.people[a].org.Some? ==> s.people[a].org.value in s.orgs)
  }

  ghost predicate Counted(s: State) {
    && "" !in s.people
    && (forall o :: o in s.orgs ==> o <= s.last)
  }

  ghost predicate Good(s: State) {
    Led(s) && Agreed(s) && Counted(s)
  }

  lemma BereftKeepsLeader(o: Org, who: AgentId)
    requires HasOneLeader(o) && (o.members - {who}).Keys != {} && "" !in o.members
    ensures HasOneLeader(Bereft(o, who))
    ensures Bereft(o, who).members.Keys == o.members.Keys - {who}
    ensures Bereft(o, who).meta > o.meta && Bereft(o, who).treasury == o.treasury
    ensures who in o.members && o.members[who] == Leader ==>
              forall a :: a in Bereft(o, who).members && Bereft(o, who).members[a] == Leader ==>
                IsLeast(a, o.members.Keys - {who})
  {
    var l :| l in o.members && LedBy(o, l);
    var rest := o.members - {who};
    var heir := Least(rest.Keys);
    assert heir in rest;
    var b := Bereft(o, who);
    if l == who {
      assert heir in b.members && LedBy(b, heir);
    } else {
      assert l in b.members && LedBy(b, l);
    }
  }

  lemma LeaveKeepsAgreed(s: State, who: AgentId, id: OrgId, s': State)
    requires Agreed(s) && who in s.people && s.people[who].org == Some(id) && s' == Left(s, who)
    ensures Agreed(s')
  {
    assert id in s.orgs;
    var rest := (s.orgs[id].members - {who}).Keys;
    forall a | BelongsTo(s, a, id) ensures a == who || a in rest {
      assert a in s.orgs[id].members;
    }
    forall o, a | o in s'.orgs ensures a in s'.orgs[o].members <==> BelongsTo(s', a, o) {
      assert a in s.orgs[o].members <==> BelongsTo(s, a, o);
      if o == id {
        assert a in s'.orgs[o].members <==> a in rest;
      }
    }
    forall a | a in s'.people && s'.people[a].org.Some? ensures s'.people[a].org.value in s'.orgs {
      assert a != who && s'.people[a].org == s.people[a].org;
      assert s.people[a].org.value == id ==> BelongsTo(s, a, id);
    }
  }

  lemma LeaveKeeps(s: State, who: AgentId, s': State)
    requires Good(s) && who in s.people && s.people[who].org.Some? && s' == Left(s, who)
    ensures Good(s')
  {
    var id := s.people[who].org.value;
    LeaveKeepsAgreed(s, who, id, s');
    if (s.orgs[id].members - {who}).Keys != {} {
      assert "" !in s.orgs[id].members by { assert !BelongsTo(s, "", id); }
      BereftKeepsLeader(s.orgs[id], who);
    }
  }

  lemma JoinKeeps(s: State, who: AgentId, org: Option<OrgId>, s': State)
    requires Good(s) && who in s.people && Check(s, who, Join(org)) == Done && s' == Next(s, who, Join(org))
    ensures Good(s')
  {
    var o := s.orgs[org.value];
    assert who !in o.members by { assert !BelongsTo(s, who, org.value); }
    var l :| l in o.members && LedBy(o, l);
    assert LedBy(s'.orgs[org.value], l);
    forall p, a | p in s'.orgs ensures a in s'.orgs[p].members <==> BelongsTo(s', a, p) {
      assert a in s.orgs[p].members <==> BelongsTo(s, a, p);
    }
  }

  lemma CreateKeepsAgreed(s: State, who: AgentId, id: OrgId, s': State)
    requires Agreed(s) && who in s.people && s.people[who].org.None? && id !in s.orgs
    requires s'.orgs == s.orgs[id := Org(map[who := Leader], 1, map[])] && s'.people == Moved(s, who, Some(id))
    ensures Agreed(s')
  {
    forall p, a | p in s'.orgs ensures a in s'.orgs[p].members <==> BelongsTo(s', a, p) {
      if p in s.orgs {
        assert a in s.orgs[p].members <==> BelongsTo(s, a, p);
      } else {
        assert !BelongsTo(s, a, p);
      }
    }
  }

  lemma CreateKeeps(s: State, who: AgentId, q: Request, s': State)
    requires Good(s) && who in s.people && q.Create? && Check(s, who, q) == Done && s' == Next(s, who, q)
    ensures Good(s')
  {
    assert LedBy(s'.orgs[s'.last], who);
    assert s.last + 1 !in s.orgs;
    CreateKeepsAgreed(s, who, s.last + 1, s');
  }

  /** A deposit or withdrawal, as far as membership is concerned: one treasury and one purse replaced. */
  ghost predicate Repaid(s: State, s': State, who: AgentId, o: OrgId, inventory: Bag, treasury: Bag)
    requires who in s.people && o in s.orgs
  {
    && s'.last == s.last
    && s'.orgs == s.orgs[o := Funded(s.orgs[o], treasury)]
    && s'.people == s.people[who := Holding(s.people[who], inventory)]
  }

  lemma MoneyKeepsLed(s: State, who: AgentId, o: OrgId, inventory: Bag, treasury: Bag, s': State)
    requires Led(s) && who in s.people && o in s.orgs && Repaid(s, s', who, o, inventory, treasury)
    ensures Led(s')
  {
    var l :| l in s.orgs[o].members && LedBy(s.orgs[o], l);
    assert LedBy(s'.orgs[o], l);
  }

  lemma MoneyKeepsAgreed(s: State, who: AgentId, o: OrgId, inventory: Bag, treasury: Bag, s': State)
    requires Agreed(s) && who in s.people && o in s.orgs && Repaid(s, s', who, o, inventory, treasury)
    ensures Agreed(s')
  {
    forall p, a | p in s'.orgs ensures a in s'.orgs[p].members <==> BelongsTo(s', a, p) {
      assert a in s.orgs[p].members <==> BelongsTo(s, a, p);
    }
  }

  lemma MoneyKeeps(s: State, who: AgentId, o: OrgId, inventory: Bag, treasury: Bag, s': State)
    requires Good(s) && who in s.people && o in s.orgs && Repaid(s, s', who, o, inventory, treasury)
    ensures Good(s')
  {
    MoneyKeepsLed(s, who, o, inventory, treasury, s');
    MoneyKeepsAgreed(s, who, o, inventory, treasury, s');
  }

  /** Every request keeps one leader per organisation and both sides of the membership relation in step. */
  lemma StepKeepsGood(s: State, who: AgentId, q: Request)
    requires Good(s) && who in s.people
    ensures Good(Next(s, who, q))
  {
    var s' := Next(s, who, q);
    if Check(s, who, q) == Done {
      match q
      case Create(_, _) => CreateKeeps(s, who, q, s');
      case Join(org) => JoinKeeps(s, who, org, s');
      case Leave => LeaveKeeps(s, who, s');
      case Deposit(org, _, _, _) =>
        MoneyKeeps(s, who, org.value, s'.people[who].inventory, s'.orgs[org.value].treasury, s');
      case Withdraw(org, _, _, _) =>
        MoneyKeeps(s, who, org.value, s'.people[who].inventory, s'.orgs[org.value].treasury, s');
    }
  }

  // ----- whole runs

  datatype Ask = Ask(who: AgentId, q: Request)

  ghost predicate StepsAt(run: seq<State>, asks: seq<Ask>, k: nat)
    requires |run| == |asks| + 1 && k < |asks|
  {
    asks[k].who in run[k].people && run[k + 1] == Next(run[k], asks[k].who, asks[k].q)
  }

  /** Consecutive states joined by requests of present agents, from a good start. */
  ghost predicate IsRun(run: seq<State>, asks: seq<Ask>) {
    |run| == |asks| + 1 && Good(run[0]) && forall k: nat :: k < |asks| ==> StepsAt(run, asks, k)
  }

  /** A registry without organisations is a good start. */
  lemma EmptyRegistryIsGood(people: map<AgentId, Person>)
    requires "" !in people && forall a :: a in people ==> people[a].org.None?
    ensures Good(State(map[], people, 0))
  {
  }

  lemma {:induction false} RunsStayGood(run: seq<State>, asks: seq<Ask>, k: nat)
    requires IsRun(run, asks) && k < |run|
    ensures Good(run[k])
  {
    if k > 0 {
      RunsStayGood(run, asks, k - 1);
      assert StepsAt(run, asks, k - 1);
      StepKeepsGood(run[k - 1], asks[k - 1].who, asks[k - 1].q);
    }
  }

  /** The version of an organisation that is there before and after grows if and only if somebody joined,
      left or was promoted. */
  ghost predicate Versioned(o: Org, o': Org) {
    o.meta <= o'.meta && (o.meta == o'.meta <==> o.members == o'.members)
  }

  lemma LeaveVersions(s: State, who: AgentId, o: OrgId, s': State)
    requires Led(s) && Agreed(s) && "" !in s.people && who in s.people && s.people[who].org.Some?
    requires o in s.orgs && o in s'.orgs && s' == Left(s, who)
    ensures Versioned(s.orgs[o], s'.orgs[o])
  {
    if s.people[who].org == Some(o) {
      assert BelongsTo(s, who, o) && !BelongsTo(s, "", o);
      assert who in s.orgs[o].members && "" !in s.orgs[o].members;
      BereftKeepsLeader(s.orgs[o], who);
      assert who !in s'.orgs[o].members;
    }
  }

  lemma JoinVersions(s: State, who: AgentId, o: OrgId, org: Option<OrgId>, s': State)
    requires Agreed(s) && who in s.people && o in s.orgs && o in s'.orgs
    requires Check(s, who, Join(org)) == Done && s' == Next(s, who, Join(org))
    ensures Versioned(s.orgs[o], s'.orgs[o])
  {
    if org == Some(o) {
      assert !BelongsTo(s, who, o);
      assert who !in s.orgs[o].members && who in s'.orgs[o].members;
    }
  }

  lemma MoneyVersions(s: State, who: AgentId, q: Request, o: OrgId, s': State)
    requires who in s.people && o in s.orgs && s' == Next(s, who, q) && (q.Deposit? || q.Withdraw?)
    ensures o in s'.orgs && Versioned(s.orgs[o], s'.orgs[o])
  {
  }

  lemma StepVersions(s: State, who: AgentId, q: Request, o: OrgId, s': State)
    requires Good(s) && who in s.people && o in s.orgs && s' == Next(s, who, q) && o in s'.orgs
    ensures Versioned(s.orgs[o], s'.orgs[o])
  {
    if Check(s, who, q) == Done {
      match q
      case Create(_, _) =>
      case Join(org) => JoinVersions(s, who, o, org, s');
      case Leave => LeaveVersions(s, who, o, s');
      case Deposit(_, _, _, _) => MoneyVersions(s, who, q, o, s');
      case Withdraw(_, _, _, _) => MoneyVersions(s, who, q, o, s');
    }
  }

  lemma StepNeverRevives(s: State, who: AgentId, q: Request, o: OrgId)
    requires who in s.people && o <= s.last && o !in s.orgs
    ensures o !in Next(s, who, q).orgs
  {
  }

  lemma StepCounts(s: State, who: AgentId, q: Request)
    requires who in s.people
    ensures Next(s, who, q).last >= s.last
  {
  }

  /** One step of a run, for an organisation known by then. */
  lemma RunVersions(run: seq<State>, asks: seq<Ask>, k: nat, o: OrgId)
    requires IsRun(run, asks) && k < |asks| && o <= run[k].last
    ensures o <= run[k + 1].last
    ensures o in run[k + 1].orgs ==> o in run[k].orgs && Versioned(run[k].orgs[o], run[k + 1].orgs[o])
  {
    RunsStayGood(run, asks, k);
    assert StepsAt(run, asks, k);
    StepCounts(run[k], asks[k].who, asks[k].q);
    if o !in run[k].orgs {
      StepNeverRevives(run[k], asks[k].who, asks[k].q, o);
    } else if o in run[k + 1].orgs {
      StepVersions(run[k], asks[k].who, asks[k].q, o, run[k + 1]);
    }
  }

  /** The organisation stays there from `i` to `j`. */
  ghost predicate Lasts(run: seq<State>, i: nat, j: nat, o: OrgId) {
    forall k: nat :: i <= k <= j && k < |run| ==> o in run[k].orgs
  }

  ghost predicate Unchanged(run: seq<State>, i: nat, j: nat, o: OrgId)
    requires i <= j < |run| && Lasts(run, i, j, o)
  {
    forall k: nat :: i <= k <= j ==> run[k].orgs[o].members == run[i].orgs[o].members
  }

  /** Over any stretch of a run ids are never reused, the version never goes back, and it stands still
      exactly while no member and no role changes: comparing versions misses nothing. */
  lemma {:induction false} VersionsTellTheTruth(run: seq<State>, asks: seq<Ask>, i: nat, j: nat, o: OrgId)
    requires IsRun(run, asks) && i <= j < |run| && o in run[i].orgs
    ensures o <= run[j].last
    ensures o in run[j].orgs ==>
              && Lasts(run, i, j, o)
              && run[i].orgs[o].meta <= run[j].orgs[o].meta
              && (run[i].orgs[o].meta == run[j].orgs[o].meta <==> Unchanged(run, i, j, o))
    decreases j
  {
    if i < j {
      VersionsTellTheTruth(run, asks, i, j - 1, o);
      RunVersions(run, asks, j - 1, o);
    } else {
      RunsStayGood(run, asks, i);
    }
  }

  // ----- items

  ghost function Held(s: State, i: Item): map<AgentId, int> {
    map a | a in s.people :: Count(s.people[a].inventory, i)
  }

  ghost function Banked(s: State, i: Item): map<OrgId, int> {
    map o | o in s.orgs :: Count(s.orgs[o].treasury, i)
  }

  ghost function Total(s: State, i: Item): int {
    SumMap(Held(s, i)) + SumMap(Banked(s, i))
  }

  /** The organisation that a request by `who` closes. */
  ghost predicate Closes(s: State, who: AgentId, q: Request, o: OrgId)
    requires who in s.people
  {
    q.Leave? && s.people[who].org == Some(o) && o in s.orgs && s.orgs[o].members.Keys <= {who}
  }

  ghost function Lost(s: State, who: AgentId, q: Request, i: Item): int
    requires who in s.people
  {
    if q.Leave? && s.people[who].org.Some? && Closes(s, who, q, s.people[who].org.value)
    then Count(s.orgs[s.people[who].org.value].treasury, i) else 0
  }

  lemma MoneyCounts(s: State, who: AgentId, o: OrgId, inventory: Bag, treasury: Bag, i: Item, s': State)
    requires who in s.people && o in s.orgs && Repaid(s, s', who, o, inventory, treasury)
    ensures Held(s', i) == Held(s, i)[who := Count(inventory, i)]
    ensures Banked(s', i) == Banked(s, i)[o := Count(treasury, i)]
  {
  }

  lemma MoneyTotal(s: State, who: AgentId, o: OrgId, inventory: Bag, treasury: Bag, i: Item, s': State)
    requires who in s.people && o in s.orgs && Repaid(s, s', who, o, inventory, treasury)
    requires Count(inventory, i) + Count(treasury, i)
               == Count(s.people[who].inventory, i) + Count(s.orgs[o].treasury, i)
    ensures Total(s', i) == Total(s, i)
  {
    MoneyCounts(s, who, o, inventory, treasury, i, s');
    SumSet(Held(s, i), who, Count(inventory, i));
    SumSet(Banked(s, i), o, Count(treasury, i));
  }

  lemma LeaveTotal(s: State, who: AgentId, i: Item, s': State)
    requires who in s.people && s.people[who].org.Some? && s' == Left(s, who)
    ensures Total(s', i) == Total(s, i) - Lost(s, who, Leave, i)
  {
    var id := s.people[who].org.value;
    assert Held(s', i) == Held(s, i);
    if id in s.orgs && (s.orgs[id].members - {who}).Keys == {} {
      forall a | a in s.orgs[id].members.Keys ensures a == who {
        assert a in (s.orgs[id].members - {who}).Keys || a == who;
      }
      assert Banked(s', i) == Banked(s, i) - {id};
      SumRemove(Banked(s, i), id);
    } else {
      if id in s.orgs {
        var a :| a in (s.orgs[id].members - {who}).Keys;
        assert a in s.orgs[id].members.Keys && a != who;
      }
      assert Banked(s', i) == Banked(s, i);
    }
  }

  lemma CreateTotal(s: State, who: AgentId, id: OrgId, o: Org, i: Item, s': State)
    requires who in s.people && id !in s.orgs && o.treasury == map[]
    requires s'.orgs == s.orgs[id := o] && s'.people == Moved(s, who, Some(id))
    ensures Total(s', i) == Total(s, i)
  {
    assert Held(s', i) == Held(s, i);
    assert Count(o.treasury, i) == 0;
    assert Banked(s', i) == Banked(s, i)[id := 0];
    SumSet(Banked(s, i), id, 0);
  }

  /** No request creates or destroys an item, but one: the last member's leaving takes the whole treasury
      with it. */
  lemma StepTotals(s: State, who: AgentId, q: Request, i: Item)
    requires who in s.people && Counted(s)
    ensures Total(Next(s, who, q), i) == Total(s, i) - Lost(s, who, q, i)
  {
    var s' := Next(s, who, q);
    if Check(s, who, q) == Done {
      match q
      case Create(_, _) =>
        CreateTotal(s, who, s.last + 1, s'.orgs[s.last + 1], i, s');
      case Join(_) =>
        assert Held(s', i) == Held(s, i);
        assert Banked(s', i) == Banked(s, i);
      case Leave => LeaveTotal(s, who, i, s');
      case Deposit(org, item, _, count) =>
        MoneyTotal(s, who, org.value, s'.people[who].inventory, s'.orgs[org.value].treasury, i, s');
      case Withdraw(org, item, _, count) =>
        MoneyTotal(s, who, org.value, s'.people[who].inventory, s'.orgs[org.value].treasury, i, s');
    }
  }

  lemma TransferCounts(from: Bag, to: Bag, item: Item, count: int, i: Item)
    requires 0 < count <= Count(from, item)
    ensures Count(Drain(from, map[item := count]), i) == Count(from, i) - if i == item then count else 0
    ensures Count(Fill(to, map[item := count]), i) == Count(to, i) + if i == item then count else 0
  {
  }

  ghost function Shifted<K>(m: map<K, int>, k: K, n: int): map<K, int>
    requires k in m
  {
    m[k := m[k] + n]
  }

  /** A deposit moves exactly its count from the member to the treasury, touching no other item, purse or
      treasury. */
  lemma DepositMoves(s: State, who: AgentId, o: OrgId, item: Item, count: int, i: Item)
    requires who in s.people && Check(s, who, Deposit(Some(o), item, true, count)) == Done
    ensures var t := Next(s, who, Deposit(Some(o), item, true, count));
            && Held(t, i) == Shifted(Held(s, i), who, if i == item then -count else 0)
            && Banked(t, i) == Shifted(Banked(s, i), o, if i == item then count else 0)
  {
    var purse, treasury := s.people[who].inventory, s.orgs[o].treasury;
    TransferCounts(purse, treasury, item, count, i);
    MoneyCounts(s, who, o, Drain(purse, map[item := count]), Fill(treasury, map[item := count]), i,
                Next(s, who, Deposit(Some(o), item, true, count)));
  }

  lemma WithdrawMoves(s: State, who: AgentId, o: OrgId, item: Item, count: int, i: Item)
    requires who in s.people && Check(s, who, Withdraw(Some(o), item, true, count)) == Done
    ensures var t := Next(s, who, Withdraw(Some(o), item, true, count));
            && Held(t, i) == Shifted(Held(s, i), who, if i == item then count else 0)
            && Banked(t, i) == Shifted(Banked(s, i), o, if i == item then -count else 0)
  {
    var purse, treasury := s.people[who].inventory, s.orgs[o].treasury;
    TransferCounts(treasury, purse, item, count, i);
    MoneyCounts(s, who, o, Fill(purse, map[item := count]), Drain(treasury, map[item := count]), i,
                Next(s, who, Withdraw(Some(o), item, true, count)));
  }

  lemma DepositCanBeWithdrawn(s: State, who: AgentId, o: OrgId, item: Item, count: int, t: State)
    requires who in s.people && Check(s, who, Deposit(Some(o), item, true, count)) == Done
    requires IsAdmin(s, who, o) && Count(s.orgs[o].treasury, item) >= 0
    requires t == Next(s, who, Deposit(Some(o), item, true, count))
    ensures who in t.people && Check(t, who, Withdraw(Some(o), item, true, count)) == Done
  {
    TransferCounts(s.people[who].inventory, s.orgs[o].treasury, item, count, item);
  }

  lemma Undo<K>(m: map<K, int>, k: K, n: int)
    requires k in m
    ensures Shifted(Shifted(m, k, n), k, 0 - n) == m
  {
  }

  lemma TakenBack(s: State, who: AgentId, o: OrgId, item: Item, count: int, i: Item, t: State, u: State)
    requires who in s.people && Check(s, who, Deposit(Some(o), item, true, count)) == Done
    requires t == Next(s, who, Deposit(Some(o), item, true, count)) && who in t.people
    requires Check(t, who, Withdraw(Some(o), item, true, count)) == Done
    requires u == Next(t, who, Withdraw(Some(o), item, true, count))
    ensures Held(u, i) == Held(s, i) && Banked(u, i) == Banked(s, i)
  {
    DepositMoves(s, who, o, item, count, i);
    WithdrawMoves(t, who, o, item, count, i);
    Undo(Held(s, i), who, if i == item then -count else 0);
    Undo(Banked(s, i), o, if i == item then count else 0);
  }

  /** An admin can take back what was just deposited, and then every count is where it was. */
  lemma DepositThenWithdraw(s: State, who: AgentId, o: OrgId, item: Item, count: int, i: Item, t: State)
    requires who in s.people && Check(s, who, Deposit(Some(o), item, true, count)) == Done
    requires IsAdmin(s, who, o) && Count(s.orgs[o].treasury, item) >= 0
    requires t == Next(s, who, Deposit(Some(o), item, true, count))
    ensures who in t.people && Check(t, who, Withdraw(Some(o), item, true, count)) == Done
    ensures var u := Next(t, who, Withdraw(Some(o), item, true, count));
            Held(u, i) == Held(s, i) && Banked(u, i) == Banked(s, i)
  {
    DepositCanBeWithdrawn(s, who, o, item, count, t);
    TakenBack(s, who, o, item, count, i, t, Next(t, who, Withdraw(Some(o), item, true, count)));
  }

  /** No purse and no treasury is in debt. */
  ghost predicate Funds(s: State) {
    && (forall a :: a in s.people ==> NonNegative(s.people[a].inventory))
    && (forall o :: o in s.orgs ==> NonNegative(s.orgs[o].treasury))
  }

  lemma TransferKeepsFunds(from: Bag, to: Bag, items: Bag)
    requires NonNegative(from) && NonNegative(to)
    ensures NonNegative(Drain(from, items)) && NonNegative(Fill(to, items))
  {
  }

  lemma StepKeepsFunds(s: State, who: AgentId, q: Request)
    requires who in s.people && Funds(s)
    ensures Funds(Next(s, who, q))
  {
    if q.Deposit? && Check(s, who, q) == Done {
      TransferKeepsFunds(s.people[who].inventory, s.orgs[q.org.value].treasury, map[q.item := q.count]);
    } else if q.Withdraw? && Check(s, who, q) == Done {
      TransferKeepsFunds(s.orgs[q.org.value].treasury, s.people[who].inventory, map[q.item := q.count]);
    }
  }

  /** The request closes an organisation that still has some of `i`. */
  ghost predicate Wastes(s: State, who: AgentId, q: Request, i: Item)
    requires who in s.people
  {
    exists o :: Closes(s, who, q, o) && Count(s.orgs[o].treasury, i) > 0
  }

  lemma LosesWhatItWastes(s: State, who: AgentId, q: Request, i: Item)
    requires who in s.people && Funds(s)
    ensures Lost(s, who, q, i) >= 0
    ensures Lost(s, who, q, i) > 0 <==> Wastes(s, who, q, i)
  {
    if Lost(s, who, q, i) > 0 {
      assert Closes(s, who, q, s.people[who].org.value);
    }
  }

  ghost predicate WastesAt(run: seq<State>, asks: seq<Ask>, k: nat, i: Item)
    requires |run| == |asks| + 1 && k < |asks|
  {
    asks[k].who in run[k].people && Wastes(run[k], asks[k].who, asks[k].q, i)
  }

  /** What the first `j` requests lose together, each read off the state it is made in. */
  ghost function LostUpTo(run: seq<State>, asks: seq<Ask>, j: nat, i: Item): int
    requires |run| == |asks| + 1 && j <= |asks|
  {
    if j == 0 then 0
    else
      LostUpTo(run, asks, j - 1, i)
      + if asks[j - 1].who in run[j - 1].people then Lost(run[j - 1], asks[j - 1].who, asks[j - 1].q, i) else 0
  }

  /** Over a whole run every total changes by exactly what closing organisations take with them. */
  lemma {:induction false} RunsLoseExactly(run: seq<State>, asks: seq<Ask>, j: nat, i: Item)
    requires IsRun(run, asks) && j < |run|
    ensures Total(run[j], i) == Total(run[0], i) - LostUpTo(run, asks, j, i)
  {
    if j > 0 {
      RunsLoseExactly(run, asks, j - 1, i);
      RunsStayGood(run, asks, j - 1);
      assert StepsAt(run, asks, j - 1);
      StepTotals(run[j - 1], asks[j - 1].who, asks[j - 1].q, i);
    }
  }

  lemma {:induction false} LossesAddUp(run: seq<State>, asks: seq<Ask>, j: nat, i: Item)
    requires IsRun(run, asks) && Funds(run[0]) && j < |run|
    ensures Funds(run[j]) && LostUpTo(run, asks, j, i) >= 0
    ensures LostUpTo(run, asks, j, i) == 0 <==> forall k: nat :: k < j ==> !WastesAt(run, asks, k, i)
  {
    if j > 0 {
      LossesAddUp(run, asks, j - 1, i);
      assert StepsAt(run, asks, j - 1);
      StepKeepsFunds(run[j - 1], asks[j - 1].who, asks[j - 1].q);
      LosesWhatItWastes(run[j - 1], asks[j - 1].who, asks[j - 1].q, i);
      assert WastesAt(run, asks, j - 1, i) <==> Wastes(run[j - 1], asks[j - 1].who, asks[j - 1].q, i);
    }
  }

  /** So an item is conserved if and only if no last member leaves an organisation that has some of it,
      which can be read before each request; nothing ever creates one. */
  lemma RunsConserveUnlessWasteful(run: seq<State>, asks: seq<Ask>, j: nat, i: Item)
    requires IsRun(run, asks) && Funds(run[0]) && j < |run|
    ensures Total(run[j], i) <= Total(run[0], i)
    ensures Total(run[j], i) == Total(run[0], i) <==> forall k: nat :: k < j ==> !WastesAt(run, asks, k, i)
  {
    RunsLoseExactly(run, asks, j, i);
    LossesAddUp(run, asks, j, i);
  }

  function Founded(i: Item): State {
    State(map[1 := Org(map["A" := Leader], 1, map[i := 1])], map["A" := Person(Some(1), map[])], 1)
  }

  lemma FoundedIsGood(i: Item)
    ensures Good(Founded(i)) && Funds(Founded(i))
  {
    assert LedBy(Founded(i).orgs[1], "A");
  }

  /** It does happen: a founder who leaves a funded organisation loses the treasury. */
  lemma ATreasuryCanVanish(i: Item)
    ensures exists s: State, who, q ::
              Good(s) && Funds(s) && who in s.people && Total(Next(s, who, q), i) < Total(s, i)
  {
    var s := Founded(i);
    FoundedIsGood(i);
    StepTotals(s, "A", Leave, i);
    assert Closes(s, "A", Leave, 1);
    assert Lost(s, "A", Leave, i) == 1;
    assert Total(Next(s, "A", Leave), i) < Total(s, i);
  }

  // ----- the registry itself

  /** `b[item] -= count`, dropping the key when nothing is left. */
  function Less(b: Bag, item: Item, count: int): (r: Bag)
    requires 0 < count <= Count(b, item)
    ensures r == Drain(b, map[item := count])
  {
    if b[item] - count <= 0 then b - {item} else b[item := b[item] - count]
  }

  function More(b: Bag, item: Item, count: int): (r: Bag)
    requires count > 0
    ensures r == Fill(b, map[item := count])
  {
    b[item := Count(b, item) + count]
  }

  class OrgRegistry {
    var orgs: map<OrgId, Org>
    var people: map<AgentId, Person>
    var last: nat

    ghost function View(): State
      reads this
    {
      State(orgs, people, last)
    }

    constructor (people: map<AgentId, Person>)
      requires "" !in people && forall a :: a in people ==> people[a].org.None?
      ensures View() == State(map[], people, 0) && Good(View())
    {
      orgs, this.people, last := map[], people, 0;
    }

    method HandleCreateOrg(who: AgentId, kindOk: bool, nameOk: bool) returns (code: Code)
      requires who in people
      modifies this
      ensures code == Check(old(View()), who, Create(kindOk, nameOk))
      ensures View() == Next(old(View()), who, Create(kindOk, nameOk))
    {
      if !kindOk || !nameOk { return BadRequest; }
      if people[who].org.Some? { return Conflict; }
      last := last + 1;
      orgs := orgs[last := Org(map[who := Leader], 1, map[])];
      people := people[who := people[who].(org := Some(last))];
      return Done;
    }

    method HandleJoinOrg(who: AgentId, org: Option<OrgId>) returns (code: Code)
      requires who in people
      modifies this
      ensures code == Check(old(View()), who, Join(org))
      ensures View() == Next(old(View()), who, Join(org))
    {
      if org.None? { return BadRequest; }
      if org.value !in orgs { return InvalidTarget; }
      if people[who].org.Some? { return Conflict; }
      var o := orgs[org.value];
      orgs := orgs[org.value := o.(members := o.members[who := Member], meta := o.meta + 1)];
      people := people[who := people[who].(org := org)];
      return Done;
    }

    method HandleLeaveOrg(who: AgentId) returns (code: Code)
      requires who in people
      modifies this
      ensures code == Check(old(View()), who, Leave)
      ensures View() == Next(old(View()), who, Leave)
    {
      if people[who].org.None? { return Blocked; }
      var id := people[who].org.value;
      people := people[who := people[who].(org := None)];
      if id !in orgs { return Done; }
      var o := orgs[id];
      var led := who in o.members && o.members[who] == Leader;
      o := o.(members := o.members - {who}, meta := o.meta + 1);
      if o.members.Keys == {} {
        orgs := orgs - {id};
        return Done;
      }
      if led {
        var best := LeastOf(o.members.Keys);
        LeastUnique(o.members.Keys, best, Least(o.members.Keys));
        if best != "" {
          o := o.(members := o.members[best := Leader], meta := o.meta + 1);
        }
      }
      orgs := orgs[id := o];
      return Done;
    }

    method HandleOrgDeposit(who: AgentId, org: Option<OrgId>, item: Item, named: bool, count: int) returns (code: Code)
      requires who in people
      modifies this
      ensures code == Check(old(View()), who, Deposit(org, item, named, count))
      ensures View() == Next(old(View()), who, Deposit(org, item, named, count))
    {
      if !TransferInputOk(org, named, count) { return BadRequest; }
      if org.value !in orgs { return InvalidTarget; }
      if who !in orgs[org.value].members { return NoPermission; }
      var purse, treasury := people[who].inventory, orgs[org.value].treasury;
      if Count(purse, item) < count { return NoResource; }
      people := people[who := Holding(people[who], Less(purse, item, count))];
      orgs := orgs[org.value := Funded(orgs[org.value], More(treasury, item, count))];
      return Done;
    }

    method HandleOrgWithdraw(who: AgentId, org: Option<OrgId>, item: Item, named: bool, count: int) returns (code: Code)
      requires who in people
      modifies this
      ensures code == Check(old(View()), who, Withdraw(org, item, named, count))
      ensures View() == Next(old(View()), who, Withdraw(org, item, named, count))
    {
      if !TransferInputOk(org, named, count) { return BadRequest; }
      if org.value !in orgs { return InvalidTarget; }
      if who !in orgs[org.value].members || orgs[org.value].members[who] == Member { return NoPermission; }
      var purse, treasury := people[who].inventory, orgs[org.value].treasury;
      if Count(treasury, item) < count { return NoResource; }
      orgs := orgs[org.value := Funded(orgs[org.value], Less(treasury, item, count))];
      people := people[who := Holding(people[who], More(purse, item, count))];
      return Done;
    }
  }
}
