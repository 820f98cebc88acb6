/** When an organisation's request is granted and what it changes, told from members, roles and counts alone. */
module OrgSteps {
  import opened Common
  import opened Bags
  import opened Organizations

  ghost predicate RoleIn(s: State, who: AgentId, o: OrgId, role: Role) {
    o in s.orgs && who in s.orgs[o].members && s.orgs[o].members[who] == role
  }

  /** Who may ask for what: anyone without an organisation founds or joins one, anyone with one leaves it, every member
      pays in what it has, and only leaders and officers take out what is there. */
  lemma GrantedIff(s: State, who: AgentId, q: Request)
    requires who in s.people
    ensures Check(s, who, q) == Done <==>
              match q
              case Create(kindOk, nameOk) => kindOk && nameOk && s.people[who].org == None
              case Join(org) => org.Some? && org.value in s.orgs && s.people[who].org == None
              case Leave => s.people[who].org != None
              case Deposit(org, item, named, count) =>
                && org.Some? && named && count >= 1 && org.value in s.orgs && who in s.orgs[org.value].members
                && Count(s.people[who].inventory, item) >= count
              case Withdraw(org, item, named, count) =>
                && org.Some? && named && count >= 1
                && (RoleIn(s, who, org.value, Leader) || RoleIn(s, who, org.value, Officer))
                && Count(s.orgs[org.value].treasury, item) >= count
  {
  }

  /** The code of a refusal names a fault that is there. */
  lemma CodeIsTrue(s: State, who: AgentId, q: Request)
    requires who in s.people
    ensures match Check(s, who, q)
            case BadRequest =>
              && !q.Leave? && (q.Create? ==> !q.kindOk || !q.nameOk)
              && (q.Join? ==> q.org.None?)
              && (q.Deposit? || q.Withdraw? ==> q.org.None? || !q.named || q.count < 1)
            case InvalidTarget => (q.Join? || q.Deposit? || q.Withdraw?) && q.org.Some? && q.org.value !in s.orgs
            case Conflict => (q.Create? || q.Join?) && s.people[who].org.Some?
            case Blocked => q.Leave? && s.people[who].org.None?
            case NoPermission =>
              && (q.Deposit? || q.Withdraw?) && q.org.Some? && q.org.value in s.orgs
              && (who !in s.orgs[q.org.value].members || (q.Withdraw? && RoleIn(s, who, q.org.value, Member)))
            case NoResource =>
              && (q.Deposit? || q.Withdraw?) && q.org.Some? && q.org.value in s.orgs
              && (q.Deposit? ==> Count(s.people[who].inventory, q.item) < q.count)
              && (q.Withdraw? ==> Count(s.orgs[q.org.value].treasury, q.item) < q.count)
            case Done => true
  {
  }

  /** A plain member takes nothing out, whatever it asks for. */
  lemma PlainMembersTakeNothing(s: State, who: AgentId, org: Option<OrgId>, item: Item, named: bool, count: int)
    requires who in s.people && org.Some? && RoleIn(s, who, org.value, Member)
    ensures Check(s, who, Withdraw(org, item, named, count)) != Done
    ensures Next(s, who, Withdraw(org, item, named, count)) == s
  {
  }

  /** The founder leads alone, at version one, with an empty treasury, under the next number. */
  lemma FoundingIs(s: State, who: AgentId, kindOk: bool, nameOk: bool)
    requires who in s.people && Check(s, who, Create(kindOk, nameOk)) == Done
    ensures var t, k := Next(s, who, Create(kindOk, nameOk)), s.last + 1;
            && t.last == k && t.orgs == s.orgs[k := Org(map[who := Leader], 1, map[])]
            && t.people == s.people[who := Person(Some(k), s.people[who].inventory)]
  {
  }

  /** Who joins becomes a plain member; the version goes up by one. */
  lemma JoiningIs(s: State, who: AgentId, org: Option<OrgId>)
    requires who in s.people && Check(s, who, Join(org)) == Done
    ensures var t, o := Next(s, who, Join(org)), s.orgs[org.value];
            && t.last == s.last
            && t.orgs == s.orgs[org.value := Org(o.members[who := Member], o.meta + 1, o.treasury)]
            && t.people == s.people[who := Person(org, s.people[who].inventory)]
  {
  }

  /** Who leaves keeps its purse. The last member takes the organisation along; otherwise the version goes up by one,
      by two when the leader goes, and then the first remaining id leads. */
  lemma LeavingIs(s: State, who: AgentId, heir: AgentId)
    requires Good(s) && who in s.people && s.people[who].org.Some?
    ensures var k, t := s.people[who].org.value, Next(s, who, Leave);
            && t.last == s.last && t.people == s.people[who := Person(None, s.people[who].inventory)]
            && k in s.orgs && who in s.orgs[k].members
            && (forall l :: l != k ==> (l in t.orgs <==> l in s.orgs) && (l in s.orgs ==> t.orgs[l] == s.orgs[l]))
            && var o, rest := s.orgs[k], s.orgs[k].members - {who};
               if rest == map[] then k !in t.orgs
               else
                 && k in t.orgs && t.orgs[k].treasury == o.treasury
                 && (o.members[who] != Leader ==> t.orgs[k].members == rest && t.orgs[k].meta == o.meta + 1)
                 && (o.members[who] == Leader && IsLeast(heir, rest.Keys) ==>
                       t.orgs[k].members == rest[heir := Leader] && t.orgs[k].meta == o.meta + 2)
  {
    var k := s.people[who].org.value;
    assert BelongsTo(s, who, k);
    var rest := s.orgs[k].members - {who};
    assert rest == map[] <==> rest.Keys == {};
    if rest != map[] {
      if IsLeast(heir, rest.Keys) {
        LeastUnique(rest.Keys, heir, Least(rest.Keys));
      }
    }
  }
}
