/** Land claims: squares that never overlap, so a position belongs to at most one of them. */
module LandClaims {
  import opened Common
  import opened Bags

  type LandId = nat
  datatype Claim = Claim(owner: string, anchor: Pos, radius: int, stage: nat)
  type Claims = map<LandId, Claim>
  datatype Code = Done | NoPermission | InvalidTarget | NoResource | Conflict | Blocked | BadRequest | Internal

  const BATTERY := "BATTERY"
  const CRYSTAL_SHARD := "CRYSTAL_SHARD"

  predicate Contains(c: Claim, x: int, z: int) {
    Abs(x - c.anchor.x) <= c.radius && Abs(z - c.anchor.z) <= c.radius
  }

  /** The test between an anchor with a radius and an existing claim. */
  predicate Overlaps(x: int, z: int, r: int, c: Claim) {
    Abs(x - c.anchor.x) <= r + c.radius && Abs(z - c.anchor.z) <= r + c.radius
  }

  function Clamp(v: int, lo: int, hi: int): int {
    if v < lo then lo else if v > hi then hi else v
  }

  /** The test is exact: it holds just when the two squares share a position. */
  lemma OverlapsIffShared(a: Claim, b: Claim)
    requires a.radius >= 0 && b.radius >= 0
    ensures Overlaps(a.anchor.x, a.anchor.z, a.radius, b) <==> exists x, z :: Contains(a, x, z) && Contains(b, x, z)
  {
    if Overlaps(a.anchor.x, a.anchor.z, a.radius, b) {
      var x := Clamp(b.anchor.x, a.anchor.x - a.radius, a.anchor.x + a.radius);
      var z := Clamp(b.anchor.z, a.anchor.z - a.radius, a.anchor.z + a.radius);
      assert Contains(a, x, z) && Contains(b, x, z);
    }
  }

  ghost predicate Apart(a: Claim, b: Claim) {
    !Overlaps(a.anchor.x, a.anchor.z, a.radius, b)
  }

  /** Radii lie in 1..128 and no two claims overlap. */
  ghost predicate Disjoint(claims: Claims) {
    && (forall i :: i in claims ==> 1 <= claims[i].radius <= 128)
    && (forall i, j :: i in claims && j in claims && i != j ==> Apart(claims[i], claims[j]))
  }

  lemma AtMostOneOwner(claims: Claims, i: LandId, j: LandId, x: int, z: int)
    requires Disjoint(claims) && i in claims && j in claims && Contains(claims[i], x, z) && Contains(claims[j], x, z)
    ensures i == j
  {
    if i != j {
      assert Apart(claims[i], claims[j]);
      OverlapsIffShared(claims[i], claims[j]);
      assert false;
    }
  }

  // ----- what the handlers compute

  /** What the world answers at the claim's anchor. */
  datatype Site = Site(inBounds: bool, canBuild: bool, isAir: bool, totemKnown: bool)

  function ClaimRadius(requested: int): (r: int)
    ensures 1 <= r <= 128
  {
    if requested <= 0 then 32 else if requested > 128 then 128 else requested
  }

  ghost predicate Clear(claims: Claims, x: int, z: int, r: int, except: Option<LandId>) {
    forall i :: i in claims && except != Some(i) ==> !Overlaps(x, z, r, claims[i])
  }

  ghost function ClaimCheck(claims: Claims, purse: Bag, allowed: bool, anchor: Pos, requested: int, site: Site): Code {
    if !allowed then NoPermission
    else if anchor.y != 0 || !site.inBounds then InvalidTarget
    else if !site.canBuild then NoPermission
    else if Count(purse, BATTERY) < 1 || Count(purse, CRYSTAL_SHARD) < 1 then NoResource
    else if !Clear(claims, anchor.x, anchor.z, ClaimRadius(requested), None) then Conflict
    else if !site.isAir then Blocked
    else if !site.totemKnown then Internal
    else Done
  }

  function UpgradeCost(current: int, target: int): Bag {
    if current < 64 && target >= 128 then map[BATTERY := 3, CRYSTAL_SHARD := 6]
    else if current < 64 && target >= 64 then map[BATTERY := 1, CRYSTAL_SHARD := 2]
    else if current < 128 && target >= 128 then map[BATTERY := 2, CRYSTAL_SHARD := 4]
    else map[]
  }

  ghost function UpgradeCheck(claims: Claims, purse: Bag, id: Option<LandId>, target: int, isAdmin: bool,
                              totemStands: bool): Code
  {
    if id.None? || target <= 0 then BadRequest
    else if id.value !in claims then InvalidTarget
    else
      var c := claims[id.value];
      if !isAdmin then NoPermission
      else if c.stage >= 1 then NoPermission
      else if (target != 64 && target != 128) || target <= c.radius then BadRequest
      else if !totemStands then InvalidTarget
      else if UpgradeCost(c.radius, target) == map[] then BadRequest
      else if !Covers(purse, UpgradeCost(c.radius, target)) then NoResource
      else if !Clear(claims, c.anchor.x, c.anchor.z, target, id) then Conflict
      else Done
  }

  // ----- invariant and runs

  lemma AddKeepsDisjoint(claims: Claims, id: LandId, c: Claim)
    requires Disjoint(claims) && 1 <= c.radius <= 128 && Clear(claims, c.anchor.x, c.anchor.z, c.radius, Some(id))
    ensures Disjoint(claims[id := c])
  {
    var cs := claims[id := c];
    forall i, j | i in cs && j in cs && i != j ensures Apart(cs[i], cs[j]) {
      assert i != id && j != id ==> Apart(claims[i], claims[j]);
    }
  }

  datatype Step =
    | ClaimLand(who: string, anchor: Pos, requested: int, allowed: bool, site: Site)
    | Upgrade(who: string, land: Option<LandId>, target: int, isAdmin: bool, totemStands: bool)
    | RemoveAt(anchor: Pos)
    | Earn(who: string, items: Bag)

  datatype Registry = Registry(claims: Claims, next: nat, purses: map<string, Bag>)

  function PurseOf(r: Registry, who: string): Bag {
    if who in r.purses then r.purses[who] else map[]
  }

  ghost predicate IsFirstAt(claims: Claims, anchor: Pos, id: LandId) {
    id in claims && claims[id].anchor == anchor && forall j :: j in claims && claims[j].anchor == anchor ==> id <= j
  }

  /** A new claim under a fresh id, paid for with one of each. */
  function Staked(r: Registry, who: string, c: Claim): Registry {
    Registry(r.claims[r.next + 1 := c], r.next + 1,
             r.purses[who := Take(PurseOf(r, who), map[BATTERY := 1, CRYSTAL_SHARD := 1])])
  }

  /** A claim with a larger radius, paid for by its cost. */
  function Widened(r: Registry, who: string, id: LandId, target: int): Registry
    requires id in r.claims
  {
    r.(claims := r.claims[id := r.claims[id].(radius := target)],
       purses := r.purses[who := Drain(PurseOf(r, who), UpgradeCost(r.claims[id].radius, target))])
  }

  ghost function After(r: Registry, step: Step): Registry {
    match step
    case ClaimLand(who, anchor, requested, allowed, site) =>
      if ClaimCheck(r.claims, PurseOf(r, who), allowed, anchor, requested, site) != Done then r
      else Staked(r, who, Claim(who, anchor, ClaimRadius(requested), 0))
    case Upgrade(who, land, target, isAdmin, totemStands) =>
      if UpgradeCheck(r.claims, PurseOf(r, who), land, target, isAdmin, totemStands) != Done then r
      else Widened(r, who, land.value, target)
    case RemoveAt(anchor) =>
      if id :| IsFirstAt(r.claims, anchor, id) then r.(claims := r.claims - {id}) else r
    case Earn(who, items) =>
      r.(purses := r.purses[who := Fill(PurseOf(r, who), items)])
  }

  lemma ClaimKeepsDisjoint(r: Registry, step: Step, r': Registry)
    requires Disjoint(r.claims) && step.ClaimLand? && r' == After(r, step)
    ensures Disjoint(r'.claims)
  {
    if r'.claims != r.claims {
      AddKeepsDisjoint(r.claims, r.next + 1, r'.claims[r.next + 1]);
    }
  }

  lemma UpgradeKeepsDisjoint(r: Registry, step: Step, r': Registry)
    requires Disjoint(r.claims) && step.Upgrade? && r' == After(r, step)
    ensures Disjoint(r'.claims)
  {
    if r'.claims != r.claims {
      AddKeepsDisjoint(r.claims, step.land.value, r'.claims[step.land.value]);
    }
  }

  lemma StepKeepsDisjoint(r: Registry, step: Step)
    requires Disjoint(r.claims)
    ensures Disjoint(After(r, step).claims)
  {
    match step
    case ClaimLand(_, _, _, _, _) => ClaimKeepsDisjoint(r, step, After(r, step));
    case Upgrade(_, _, _, _, _) => UpgradeKeepsDisjoint(r, step, After(r, step));
    case RemoveAt(_) =>
    case Earn(_, _) =>
  }

  ghost function Run(r: Registry, steps: seq<Step>): Registry
    decreases |steps|
  {
    if steps == [] then r else Run(After(r, steps[0]), steps[1..])
  }

  /** Over every run of claims, upgrades and removals the claims stay apart. */
  lemma {:induction false} RunsKeepClaimsApart(r: Registry, steps: seq<Step>)
    requires Disjoint(r.claims)
    ensures Disjoint(Run(r, steps).claims)
    decreases |steps|
  {
    if steps != [] {
      StepKeepsDisjoint(r, steps[0]);
      RunsKeepClaimsApart(After(r, steps[0]), steps[1..]);
    }
  }

  // ----- the imperative forms

  /** Scans in any order; on disjoint claims the answer does not depend on it. */
  method LandAt(claims: Claims, x: int, z: int) returns (r: Option<LandId>)
    requires Disjoint(claims)
    ensures r.Some? ==> r.value in claims && Contains(claims[r.value], x, z)
    ensures forall i :: i in claims && Contains(claims[i], x, z) ==> r == Some(i)
  {
    var todo := claims.Keys;
    while todo != {}
      invariant todo <= claims.Keys
      invariant forall i :: i in claims && i !in todo ==> !Contains(claims[i], x, z)
      decreases todo
    {
      var i :| i in todo;
      if Contains(claims[i], x, z) {
        forall j | j in claims && Contains(claims[j], x, z) ensures j == i {
          AtMostOneOwner(claims, i, j, x, z);
        }
        return Some(i);
      }
      todo := todo - {i};
    }
    return None;
  }

  method IsClear(claims: Claims, x: int, z: int, r: int, except: Option<LandId>) returns (clear: bool)
    ensures clear == Clear(claims, x, z, r, except)
  {
    var todo := claims.Keys;
    while todo != {}
      invariant todo <= claims.Keys
      invariant forall i :: i in claims && i !in todo && except != Some(i) ==> !Overlaps(x, z, r, claims[i])
      decreases todo
    {
      var i :| i in todo;
      if except != Some(i) && Overlaps(x, z, r, claims[i]) {
        return false;
      }
      todo := todo - {i};
    }
    return true;
  }

  /** The checks of claiming, in the order of the handler. */
  method CheckClaimLand(claims: Claims, purse: Bag, allowed: bool, anchor: Pos, requested: int, site: Site)
    returns (code: Code)
    ensures code == ClaimCheck(claims, purse, allowed, anchor, requested, site)
  {
    if !allowed {
      return NoPermission;
    }
    if anchor.y != 0 || !site.inBounds {
      return InvalidTarget;
    }
    if !site.canBuild {
      return NoPermission;
    }
    if Count(purse, BATTERY) < 1 || Count(purse, CRYSTAL_SHARD) < 1 {
      return NoResource;
    }
    var clear := IsClear(claims, anchor.x, anchor.z, ClaimRadius(requested), None);
    if !clear {
      return Conflict;
    }
    if !site.isAir {
      return Blocked;
    }
    if !site.totemKnown {
      return Internal;
    }
    return Done;
  }

  class LandRegistry {
    var claims: Claims
    var nextLand: nat
    var purses: map<string, Bag>

    function View(): Registry
      reads this
    {
      Registry(claims, nextLand, purses)
    }

    constructor ()
      ensures View() == Registry(map[], 0, map[]) && Disjoint(claims)
    {
      claims, nextLand, purses := map[], 0, map[];
    }

    method HandleTaskClaimLand(who: string, anchor: Pos, requested: int, allowed: bool, site: Site) returns (code: Code)
      requires Disjoint(claims)
      modifies this
      ensures Disjoint(claims)
      ensures code == ClaimCheck(old(claims), PurseOf(old(View()), who), allowed, anchor, requested, site)
      ensures View() == After(old(View()), ClaimLand(who, anchor, requested, allowed, site))
    {
      StepKeepsDisjoint(View(), ClaimLand(who, anchor, requested, allowed, site));
      var purse := PurseOf(View(), who);
      code := CheckClaimLand(claims, purse, allowed, anchor, requested, site);
      if code != Done {
        return;
      }
      Stake(who, Claim(who, anchor, ClaimRadius(requested), 0));
    }

    method Stake(who: string, c: Claim)
      modifies this
      ensures View() == Staked(old(View()), who, c)
    {
      purses := purses[who := Take(PurseOf(View(), who), map[BATTERY := 1, CRYSTAL_SHARD := 1])];
      nextLand := nextLand + 1;
      claims := claims[nextLand := c];
    }

    method HandleUpgradeClaim(who: string, land: Option<LandId>, target: int, isAdmin: bool, totemStands: bool)
      returns (code: Code)
      requires Disjoint(claims)
      modifies this
      ensures Disjoint(claims)
      ensures code == UpgradeCheck(old(claims), PurseOf(old(View()), who), land, target, isAdmin, totemStands)
      ensures View() == After(old(View()), Upgrade(who, land, target, isAdmin, totemStands))
    {
      StepKeepsDisjoint(View(), Upgrade(who, land, target, isAdmin, totemStands));
      if land.None? || target <= 0 {
        return BadRequest;
      }
      if land.value !in claims {
        return InvalidTarget;
      }
      var c := claims[land.value];
      if !isAdmin || c.stage >= 1 {
        return NoPermission;
      }
      if (target != 64 && target != 128) || target <= c.radius {
        return BadRequest;
      }
      if !totemStands {
        return InvalidTarget;
      }
      var purse, cost := PurseOf(View(), who), UpgradeCost(c.radius, target);
      if cost == map[] {
        return BadRequest;
      }
      if !Covers(purse, cost) {
        return NoResource;
      }
      var clear := IsClear(claims, c.anchor.x, c.anchor.z, target, land);
      if !clear {
        return Conflict;
      }
      purses := purses[who := Drain(purse, cost)];
      claims := claims[land.value := c.(radius := target)];
      return Done;
    }

    /** Removes the smallest id at the anchor, if any. */
    method RemoveClaimByAnchor(anchor: Pos)
      requires Disjoint(claims)
      modifies this
      ensures Disjoint(claims)
      ensures View() == After(old(View()), RemoveAt(anchor))
    {
      StepKeepsDisjoint(View(), RemoveAt(anchor));
      var found: Option<LandId> := None;
      var todo := claims.Keys;
      while todo != {}
        invariant todo <= claims.Keys && claims == old(claims)
        invariant found.Some? ==> found.value in claims && claims[found.value].anchor == anchor
        invariant forall j :: j in claims && j !in todo && claims[j].anchor == anchor ==>
                    found.Some? && found.value <= j
        decreases todo
      {
        var i :| i in todo;
        if claims[i].anchor == anchor && (found.None? || i < found.value) {
          found := Some(i);
        }
        todo := todo - {i};
      }
      if found.Some? {
        assert IsFirstAt(claims, anchor, found.value);
        claims := claims - {found.value};
      }
    }
  }
}
