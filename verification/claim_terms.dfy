/** When land is granted, what it costs and what is recorded, told from squares, purses and the request alone. */
module ClaimTerms {
  import opened Common
  import opened Bags
  import opened LandClaims

  ghost predicate Covered(c: Claim, x: int, z: int) {
    c.anchor.x - c.radius <= x <= c.anchor.x + c.radius && c.anchor.z - c.radius <= z <= c.anchor.z + c.radius
  }

  /** The square of side 2r + 1 around (x, z) holds no position of a claim other than `except`. */
  ghost predicate Vacant(claims: Claims, x: int, z: int, r: int, except: Option<LandId>) {
    forall i, px, pz :: i in claims && except != Some(i) && x - r <= px <= x + r && z - r <= pz <= z + r ==>
      !Covered(claims[i], px, pz)
  }

  lemma ContainsIsCovered(c: Claim, x: int, z: int)
    ensures Contains(c, x, z) <==> Covered(c, x, z)
  {
  }

  lemma ClearIsVacant(claims: Claims, anchor: Pos, r: nat, except: Option<LandId>)
    requires forall i :: i in claims ==> claims[i].radius >= 0
    ensures Clear(claims, anchor.x, anchor.z, r, except) <==> Vacant(claims, anchor.x, anchor.z, r, except)
  {
    var wanted := Claim("", anchor, r, 0);
    forall i | i in claims && except != Some(i)
      ensures Overlaps(anchor.x, anchor.z, r, claims[i])
        <==> exists px, pz :: Covered(wanted, px, pz) && Covered(claims[i], px, pz)
    {
      OverlapsIffShared(wanted, claims[i]);
      forall px, pz
        ensures Contains(wanted, px, pz) <==> Covered(wanted, px, pz)
        ensures Contains(claims[i], px, pz) <==> Covered(claims[i], px, pz)
      {
        ContainsIsCovered(wanted, px, pz);
        ContainsIsCovered(claims[i], px, pz);
      }
      if exists px, pz :: Covered(wanted, px, pz) && Covered(claims[i], px, pz) {
        var px, pz :| Covered(wanted, px, pz) && Covered(claims[i], px, pz);
        assert Contains(wanted, px, pz) && Contains(claims[i], px, pz);
      }
    }
    if Vacant(claims, anchor.x, anchor.z, r, except) {
      forall i | i in claims && except != Some(i) ensures !Overlaps(anchor.x, anchor.z, r, claims[i]) {
        if px, pz :| Covered(wanted, px, pz) && Covered(claims[i], px, pz) {
          assert false;
        }
      }
    } else {
      var i, px, pz :| i in claims && except != Some(i) && anchor.x - r <= px <= anchor.x + r
        && anchor.z - r <= pz <= anchor.z + r && Covered(claims[i], px, pz);
      assert Covered(wanted, px, pz);
    }
  }

  // ----- claiming

  /** The radius granted: 32 when none is asked for, never above 128. */
  function Granted(requested: int): nat {
    if requested > 128 then 128 else if requested >= 1 then requested else 32
  }

  /** Land is granted exactly where claiming is allowed, on vacant ground that can be built on, for a battery and a
      crystal shard. */
  lemma ClaimGrantedIff(claims: Claims, purse: Bag, allowed: bool, anchor: Pos, requested: int, site: Site)
    requires Disjoint(claims)
    ensures ClaimCheck(claims, purse, allowed, anchor, requested, site) == Done <==>
              && allowed && anchor.y == 0 && site == Site(true, true, true, true)
              && Count(purse, "BATTERY") >= 1 && Count(purse, "CRYSTAL_SHARD") >= 1
              && Vacant(claims, anchor.x, anchor.z, Granted(requested), None)
  {
    ClearIsVacant(claims, anchor, Granted(requested), None);
  }

  function Purse(r: Registry, who: string): Bag {
    if who in r.purses then r.purses[who] else map[]
  }

  function Owns(r: Registry, a: string, i: Item): int {
    if a in r.purses then Count(r.purses[a], i) else 0
  }

  /** A granted claim is recorded under the next number, whole and at stage zero; its owner pays one of each; nothing
      else changes. A refused one changes nothing. */
  lemma ClaimIsRecorded(r: Registry, who: string, anchor: Pos, requested: int, allowed: bool, site: Site, a: string,
                        i: Item)
    ensures var t := After(r, ClaimLand(who, anchor, requested, allowed, site));
            if ClaimCheck(r.claims, Purse(r, who), allowed, anchor, requested, site) != Done then t == r
            else
              && t.next == r.next + 1
              && t.claims == r.claims[r.next + 1 := Claim(who, anchor, Granted(requested), 0)]
              && Owns(t, a, i)
                 == Owns(r, a, i) - if a == who && (i == "BATTERY" || i == "CRYSTAL_SHARD") then 1 else 0
  {
  }

  // ----- upgrading

  /** Batteries for going from one radius to a larger one of 64 or 128; crystal shards are twice as many. */
  function Batteries(from: int, to: int): nat {
    if to == 64 then 1 else if from < 64 then 3 else 2
  }

  /** Upgrading in two steps costs as much as in one. */
  lemma StepsCostTheSame(from: int)
    requires from < 64
    ensures Batteries(from, 64) + Batteries(64, 128) == Batteries(from, 128)
  {
  }

  function Price(from: int, to: int, i: Item): nat {
    if i == "BATTERY" then Batteries(from, to) else if i == "CRYSTAL_SHARD" then 2 * Batteries(from, to) else 0
  }

  ghost predicate Larger(from: int, to: int) {
    (to == 64 || to == 128) && from < to
  }

  lemma CostIsPrice(from: int, to: int, i: Item)
    requires Larger(from, to)
    ensures Count(UpgradeCost(from, to), i) == Amount(UpgradeCost(from, to), i) == Price(from, to, i)
    ensures i in UpgradeCost(from, to) <==> i == "BATTERY" || i == "CRYSTAL_SHARD"
  {
  }

  /** An upgrade is granted exactly to an admin of a claim still at stage zero whose totem stands, to a larger radius
      of 64 or 128 that meets no other claim, and that is paid for. */
  lemma UpgradeGrantedIff(claims: Claims, purse: Bag, id: Option<LandId>, target: int, isAdmin: bool,
                          totemStands: bool)
    requires Disjoint(claims)
    ensures UpgradeCheck(claims, purse, id, target, isAdmin, totemStands) == Done <==>
              && id.Some? && id.value in claims && isAdmin && totemStands
              && var c := claims[id.value];
                 && c.stage == 0 && Larger(c.radius, target)
                 && Count(purse, "BATTERY") >= Price(c.radius, target, "BATTERY")
                 && Count(purse, "CRYSTAL_SHARD") >= Price(c.radius, target, "CRYSTAL_SHARD")
                 && Vacant(claims, c.anchor.x, c.anchor.z, target, id)
  {
    if id.Some? && id.value in claims && Larger(claims[id.value].radius, target) {
      var c := claims[id.value];
      ClearIsVacant(claims, c.anchor, target, id);
      forall i ensures Count(UpgradeCost(c.radius, target), i) == Price(c.radius, target, i)
               ensures i in UpgradeCost(c.radius, target) <==> i == "BATTERY" || i == "CRYSTAL_SHARD"
      {
        CostIsPrice(c.radius, target, i);
      }
    }
  }

  /** A granted upgrade changes that claim's radius and nothing else of it, and the payer's purse by the price. */
  lemma UpgradeIsRecorded(r: Registry, who: string, id: Option<LandId>, target: int, isAdmin: bool, totemStands: bool,
                          a: string, i: Item)
    requires Disjoint(r.claims)
    ensures var t := After(r, Upgrade(who, id, target, isAdmin, totemStands));
            if UpgradeCheck(r.claims, Purse(r, who), id, target, isAdmin, totemStands) != Done then t == r
            else
              && t.next == r.next
              && t.claims == r.claims[id.value := r.claims[id.value].(radius := target)]
              && Owns(t, a, i) == Owns(r, a, i) - if a == who then Price(r.claims[id.value].radius, target, i) else 0
  {
    if UpgradeCheck(r.claims, Purse(r, who), id, target, isAdmin, totemStands) == Done {
      UpgradeGrantedIff(r.claims, Purse(r, who), id, target, isAdmin, totemStands);
      CostIsPrice(r.claims[id.value].radius, target, i);
    }
  }

  /** The code of a refusal names a fault that is there. */
  lemma ClaimCodeIsTrue(claims: Claims, purse: Bag, allowed: bool, anchor: Pos, requested: int, site: Site)
    requires Disjoint(claims)
    ensures match ClaimCheck(claims, purse, allowed, anchor, requested, site)
            case NoPermission => !allowed || !site.canBuild
            case InvalidTarget => anchor.y != 0 || !site.inBounds
            case NoResource => Count(purse, "BATTERY") < 1 || Count(purse, "CRYSTAL_SHARD") < 1
            case Conflict => !Vacant(claims, anchor.x, anchor.z, Granted(requested), None)
            case Blocked => !site.isAir
            case Internal => !site.totemKnown
            case BadRequest => false
            case Done => true
  {
    ClearIsVacant(claims, anchor, Granted(requested), None);
  }

  lemma UpgradeCodeIsTrue(claims: Claims, purse: Bag, id: Option<LandId>, target: int, isAdmin: bool,
                          totemStands: bool)
    requires Disjoint(claims)
    ensures match UpgradeCheck(claims, purse, id, target, isAdmin, totemStands)
            case BadRequest =>
              id.None? || target < 1 || (id.value in claims && !Larger(claims[id.value].radius, target))
            case InvalidTarget => id.Some? && (id.value !in claims || !totemStands)
            case NoPermission => id.Some? && id.value in claims && (!isAdmin || claims[id.value].stage > 0)
            case NoResource =>
              && id.Some? && id.value in claims
              && exists i :: Count(purse, i) < Price(claims[id.value].radius, target, i)
            case Conflict =>
              && id.Some? && id.value in claims
              && !Vacant(claims, claims[id.value].anchor.x, claims[id.value].anchor.z, target, id)
            case Blocked => false
            case Internal => false
            case Done => true
  {
    if id.Some? && id.value in claims && Larger(claims[id.value].radius, target) {
      var c := claims[id.value];
      ClearIsVacant(claims, c.anchor, target, id);
      forall i ensures Count(UpgradeCost(c.radius, target), i) == Price(c.radius, target, i)
               ensures i in UpgradeCost(c.radius, target) <==> i == "BATTERY" || i == "CRYSTAL_SHARD"
      {
        CostIsPrice(c.radius, target, i);
      }
      assert "BATTERY" in UpgradeCost(c.radius, target);
    }
  }

  // ----- removing

  /** Of the claims anchored at a place the one with the least number goes, if there is one. */
  lemma RemovalIsRecorded(r: Registry, anchor: Pos, k: LandId)
    ensures var t := After(r, RemoveAt(anchor));
            && t.next == r.next && t.purses == r.purses
            && (k in t.claims ==> k in r.claims && t.claims[k] == r.claims[k])
            && (k in r.claims && k !in t.claims <==>
                  && k in r.claims && r.claims[k].anchor == anchor
                  && forall j :: j in r.claims && r.claims[j].anchor == anchor ==> k <= j)
  {
    if k in r.claims && r.claims[k].anchor == anchor
       && forall j :: j in r.claims && r.claims[j].anchor == anchor ==> k <= j {
      assert IsFirstAt(r.claims, anchor, k);
    }
  }
}
