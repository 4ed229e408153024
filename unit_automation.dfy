/** `UnitAutomation.automateUnitMoves`: the fixed order of rules that picks
    what an automated unit does this turn, and the rules that live only in
    it (upgrading, accompanying settlers, heading for enemy cities, work
    boats). */
module UnitAutomation {
  import opened Wrappers
  import opened Select
  import opened Game
  import opened Units
  import opened Ranking
  import opened Healing
  import opened Combat
  import opened Garrison
  import opened Exploration
  import opened Settling

  // ---------------------------------------------------------------- upgrading

  /** `goldCostOfUpgrade`. */
  function UpgradeCost(from: BaseUnit, to: BaseUnit): int {
    (to.cost - from.cost) * 2 + 10
  }

  /** The decision of `tryUpgradeUnit`: the "Upgrade to ..." action to
      execute, if any. A unit type the ruleset does not know is the failure
      of the source's `!!`. */
  function UpgradeFor(unit: UnitState, civ: Civ, ruleset: map<string, BaseUnit>, unitActions: seq<UnitAction>)
    : (r: Result<Option<UnitAction>, Fault>)
    ensures r.Err? <==> unit.base.upgradesTo.Some? && unit.base.upgradesTo.value !in ruleset
    ensures r.Err? ==> r.error == UnknownUnitType(unit.base.upgradesTo.value)
    ensures (r.Ok? && r.value.Some?) <==>
              && unit.base.upgradesTo.Some? && unit.base.upgradesTo.value in ruleset
              && unit.base.upgradesTo.value in civ.buildableUnits
              && (exists a :: a in unitActions && StartsWith(a.name, "Upgrade to"))
              && civ.gold > UpgradeCost(unit.base, ruleset[unit.base.upgradesTo.value])
    ensures r.Ok? && r.value.Some? ==>
              r.value.value in unitActions && StartsWith(r.value.value.name, "Upgrade to")
  {
    match unit.base.upgradesTo
    case None => Ok(None)
    case Some(name) =>
      if name !in ruleset then Err(UnknownUnitType(name))
      else if name !in civ.buildableUnits then Ok(None)
      else
        var upgradeAction := FirstWhere(unitActions, (a: UnitAction) => StartsWith(a.name, "Upgrade to"));
        if upgradeAction.Some? && civ.gold > UpgradeCost(unit.base, ruleset[name]) then Ok(upgradeAction)
        else Ok(None)
  }

  /** Gold equal to the upgrade cost is not enough: the comparison is strict. */
  lemma UpgradeNeedsMoreThanCost(unit: UnitState, civ: Civ, ruleset: map<string, BaseUnit>, unitActions: seq<UnitAction>)
    requires unit.base.upgradesTo.Some? && unit.base.upgradesTo.value in ruleset
    requires civ.gold == UpgradeCost(unit.base, ruleset[unit.base.upgradesTo.value])
    ensures UpgradeFor(unit, civ, ruleset, unitActions) == Ok(None)
  {
  }

  /** `tryUpgradeUnit`: executes the upgrade action when `UpgradeFor` picks one. */
  method TryUpgradeUnit(unit: MapUnit, civ: Civ, ruleset: map<string, BaseUnit>, unitActions: seq<UnitAction>)
    returns (r: Result<bool, Fault>)
    requires unit.Valid()
    requires forall i :: 0 <= i < |unitActions| ==> 0.0 <= unitActions[i].movementAfter
    modifies unit
    ensures unit.Valid()
    ensures NoStrikeAdded(old(unit.effects), unit.effects)
    ensures var decision := UpgradeFor(old(unit.State()), civ, ruleset, unitActions);
            && (decision.Err? ==> r == Err(decision.error))
            && (decision.Ok? ==> r == Ok(decision.value.Some?))
            && (decision.Ok? && decision.value.Some? ==>
                  && unit.effects == old(unit.effects) + [Executed(decision.value.value.name)]
                  && unit.currentMovement == decision.value.value.movementAfter)
            && (r != Ok(true) ==> unit.State() == old(unit.State()) && unit.effects == old(unit.effects))
            && unit.Snap() == if r == Ok(true) then old(unit.Snap()).Perform(decision.value.value) else old(unit.Snap())
    ensures unit.position == old(unit.position)
    ensures unit.health == old(unit.health) && unit.action == old(unit.action)
    ensures unit.destroyed == old(unit.destroyed)
  {
    var decision := UpgradeFor(unit.State(), civ, ruleset, unitActions);
    if decision.Err? {
      return Err(decision.error);
    }
    if decision.value.None? {
      return Ok(false);
    }
    unit.Execute(decision.value.value);
    return Ok(true);
  }

  // ------------------------------------------------------ accompanying settlers

  /** `settlerToAccompany`: the first settler of the civilization standing
      without a military unit on a tile this unit may enter and can reach. */
  function SettlerToAccompany(civ: Civ, nav: Navigator, unit: UnitState): (r: Option<UnitRecord>)
    ensures r.None? <==> forall s :: s in civ.units ==>
              !(s.name == "Settler" && !s.tile.hasMilitaryUnit && nav.CanMoveTo(unit.position, s.tile) && nav.canReach(unit.position, s.tile))
    ensures r.Some? ==> && r.value in civ.units && r.value.name == "Settler" && !r.value.tile.hasMilitaryUnit
                        && nav.CanMoveTo(unit.position, r.value.tile) && nav.canReach(unit.position, r.value.tile)
  {
    FirstWhere(civ.units, (s: UnitRecord) =>
      s.name == "Settler" && !s.tile.hasMilitaryUnit && nav.CanMoveTo(unit.position, s.tile) && nav.canReach(unit.position, s.tile))
  }

  /** `tryAccompanySettler`. */
  method TryAccompanySettler(unit: MapUnit, civ: Civ, env: Env) returns (handled: bool)
    requires unit.Valid() && env.Valid()
    modifies unit
    ensures unit.Valid()
    ensures NoStrikeAdded(old(unit.effects), unit.effects)
    ensures var settler := SettlerToAccompany(civ, env.nav, old(unit.State()));
            && handled == settler.Some?
            && (!handled ==> unit.State() == old(unit.State()) && unit.effects == old(unit.effects))
            && (handled ==>
                  && Arrival(unit.position, unit.currentMovement)
                     == env.nav.headTowards(old(unit.position), old(unit.currentMovement), settler.value.tile)
                  && unit.effects == old(unit.effects) + [Headed(settler.value.tile)])
            && unit.Snap() == if handled then old(unit.Snap()).HeadTowards(env.nav, settler.value.tile) else old(unit.Snap())
    ensures unit.health == old(unit.health) && unit.action == old(unit.action)
    ensures unit.destroyed == old(unit.destroyed)
  {
    var settler := SettlerToAccompany(civ, env.nav, unit.State());
    if settler.None? {
      return false;
    }
    unit.HeadTowards(env.nav, settler.value.tile);
    return true;
  }

  // --------------------------------------------------- heading for enemy cities

  /** The distance from `target` to the nearest of `cities`. */
  function NearestDistance(w: World, target: Tile, cities: seq<Tile>): (r: nat)
    requires cities != []
    ensures forall c :: c in cities ==> r <= w.distance(target.position, c.position)
  {
    var d := w.distance(target.position, cities[0].position);
    if |cities| == 1 then d
    else
      var rest := NearestDistance(w, target, cities[1..]);
      if d <= rest then d else rest
  }

  /** The nearest distance is the distance to one of the cities. */
  lemma {:induction false} NearestDistanceAttained(w: World, target: Tile, cities: seq<Tile>)
    requires cities != []
    ensures exists c :: c in cities && NearestDistance(w, target, cities) == w.distance(target.position, c.position)
  {
    var first := cities[0];
    assert first in cities;
    if |cities| > 1 {
      NearestDistanceAttained(w, target, cities[1..]);
      var c :| c in cities[1..] && NearestDistance(w, target, cities[1..]) == w.distance(target.position, c.position);
      assert c in cities;
      if NearestDistance(w, target, cities) != w.distance(target.position, first.position) {
        assert NearestDistance(w, target, cities) == w.distance(target.position, c.position);
      }
    }
  }

  /** An enemy city worth marching on: of a civilization the unit's is at
      war with, explored, reachable, and, for a ranged unit, not one at 1
      health (which only a melee unit can take). */
  predicate EnemyCityCandidate(w: World, civ: Civ, nav: Navigator, unit: UnitState, c: Tile) {
    && c in w.AllCities() && w.AtWar(unit.civ, c.city.value.civ)
    && c.position in civ.exploredTiles
    && (unit.base.isRanged ==> c.city.value.health != 1)
    && nav.canReach(unit.position, c)
  }

  /** `closestReachableEnemyCity`: the candidate nearest to one of the unit's
      own cities; none when the civilization has no city. */
  function EnemyCityTarget(w: World, civ: Civ, nav: Navigator, unit: UnitState): (r: Option<Tile>)
    ensures r.None? <==> w.Cities(unit.civ) == [] || forall c :: c in w.tiles ==> !EnemyCityCandidate(w, civ, nav, unit, c)
    ensures r.Some? ==> w.Cities(unit.civ) != [] && EnemyCityCandidate(w, civ, nav, unit, r.value)
    ensures r.Some? ==> forall c :: EnemyCityCandidate(w, civ, nav, unit, c) ==>
              NearestDistance(w, r.value, w.Cities(unit.civ)) <= NearestDistance(w, c, w.Cities(unit.civ))
  {
    var ownCities := w.Cities(unit.civ);
    if ownCities == [] then None
    else
      var enemyCities := Filter(w.AllCities(), (c: Tile) =>
        c.IsCityCenter() && w.AtWar(unit.civ, c.city.value.civ) && c.position in civ.exploredTiles);
      var targets := if unit.base.isRanged
                     then Filter(enemyCities, (c: Tile) => c.IsCityCenter() && c.city.value.health != 1)
                     else enemyCities;
      var reachable := Filter(targets, (c: Tile) => nav.canReach(unit.position, c));
      assert forall c :: c in reachable <==> EnemyCityCandidate(w, civ, nav, unit, c);
      MinBy(reachable, (c: Tile) => NearestDistance(w, c, ownCities) as real)
  }

  /** `tryHeadTowardsEnemyCity`. */
  method TryHeadTowardsEnemyCity(unit: MapUnit, w: World, civ: Civ, env: Env) returns (handled: bool)
    requires unit.Valid() && env.Valid()
    modifies unit
    ensures unit.Valid()
    ensures NoStrikeAdded(old(unit.effects), unit.effects)
    ensures var target := EnemyCityTarget(w, civ, env.nav, old(unit.State()));
            && handled == target.Some?
            && (!handled ==> unit.State() == old(unit.State()) && unit.effects == old(unit.effects))
            && (handled ==>
                  && Arrival(unit.position, unit.currentMovement)
                     == env.nav.headTowards(old(unit.position), old(unit.currentMovement), target.value)
                  && unit.effects == old(unit.effects) + [Headed(target.value)])
            && unit.Snap() == if handled then old(unit.Snap()).HeadTowards(env.nav, target.value) else old(unit.Snap())
    ensures unit.health == old(unit.health) && unit.action == old(unit.action)
    ensures unit.destroyed == old(unit.destroyed)
  {
    var target := EnemyCityTarget(w, civ, env.nav, unit.State());
    if target.None? {
      return false;
    }
    unit.HeadTowards(env.nav, target.value);
    return true;
  }

  // ---------------------------------------------------------------- work boats

  /** `hasWorkableSeaResource`: water with a resource and no improvement. */
  predicate HasWorkableSeaResource(t: Tile) {
    t.resource.Some? && t.isWater && t.improvement.None?
  }

  /** `getTilesInRange` of every city of `civ`, one city after another. */
  function TilesInCityRanges(w: World, cities: seq<Tile>): (r: seq<Tile>)
    ensures forall t :: t in r <==> exists c :: c in cities && t in w.TilesInDistance(c, 3)
  {
    if cities == [] then []
    else
      var r := w.TilesInDistance(cities[0], 3) + TilesInCityRanges(w, cities[1..]);
      assert cities[0] in cities && forall c :: c in cities[1..] ==> c in cities;
      assert forall c :: c in cities ==> c == cities[0] || c in cities[1..];
      r
  }

  /** `seaResourcesInCities`. */
  function SeaResourcesInCities(w: World, nav: Navigator, unit: UnitState): (r: seq<Tile>)
    ensures forall t :: t in r <==> t in TilesInCityRanges(w, w.Cities(unit.civ))
                                     && HasWorkableSeaResource(t) && (nav.CanMoveTo(unit.position, t) || unit.position == t)
  {
    Filter(TilesInCityRanges(w, w.Cities(unit.civ)),
           (t: Tile) => HasWorkableSeaResource(t) && (nav.CanMoveTo(unit.position, t) || unit.position == t))
  }

  /** `reachableResource`: the nearest reachable sea resource. */
  function ReachableResource(w: World, nav: Navigator, unit: UnitState): (r: Option<Tile>)
    ensures r.None? <==> forall t :: t in SeaResourcesInCities(w, nav, unit) ==> !nav.canReach(unit.position, t)
    ensures r.Some? ==> r.value in SeaResourcesInCities(w, nav, unit) && nav.canReach(unit.position, r.value)
    ensures r.Some? ==> forall t :: t in SeaResourcesInCities(w, nav, unit) && nav.canReach(unit.position, t) ==>
              w.distance(r.value.position, unit.position.position) <= w.distance(t.position, unit.position.position)
  {
    MinBy(Filter(SeaResourcesInCities(w, nav, unit), (t: Tile) => nav.canReach(unit.position, t)),
          (t: Tile) => w.distance(t.position, unit.position.position) as real)
  }

  /** The "Create Fishing Boats" action on offer in a state, if any. */
  function FishingBoatsAction(env: Env, s: UnitState): Option<UnitAction> {
    FirstWhere(env.actionsAt(s.position, s.movement), (a: UnitAction) => a.name == "Create Fishing Boats")
  }

  /** The first part of `automateWorkBoats` for a chosen resource: the boat
      heads for it and takes the navigator's arrival; it creates fishing boats
      exactly when it arrives on a workable sea resource with movement left
      and the action is offered, and fails as the source's `first { }` does
      when it is not offered. */
  function WorkResourceTurn(env: Env, resource: Tile, b: Snapshot): (r: (Result<(), Fault>, Snapshot))
    ensures var a := env.nav.headTowards(b.state.position, b.state.movement, resource);
            var arrived := b.state.(position := a.tile, movement := a.movementLeft);
            var works := a.movementLeft > 0.0 && HasWorkableSeaResource(a.tile);
            && r.1.state.position == a.tile
            && (r.0.Err? <==> works && FishingBoatsAction(env, arrived).None?)
            && (r.0.Err? ==> r.0.error == NoSuchAction("Create Fishing Boats"))
            && (works && r.0.Ok? ==>
                  && r.1.effects == b.effects + [Headed(resource), Executed("Create Fishing Boats")]
                  && r.1.state.movement == FishingBoatsAction(env, arrived).value.movementAfter)
            && (!(works && r.0.Ok?) ==>
                  r.1.effects == b.effects + [Headed(resource)] && r.1.state.movement == a.movementLeft)
    ensures r.1.state.health == b.state.health && r.1.state.action == b.state.action
  {
    var headed := b.HeadTowards(env.nav, resource);
    if headed.state.movement > 0.0 && HasWorkableSeaResource(headed.state.position) then
      match FishingBoatsAction(env, headed.state)
      case None => (Err(NoSuchAction("Create Fishing Boats")), headed)
      case Some(act) => (Ok(()), headed.Perform(act))
    else (Ok(()), headed)
  }

  method WorkResource(unit: MapUnit, env: Env, resource: Tile) returns (r: Result<(), Fault>)
    requires unit.Valid() && env.Valid()
    modifies unit
    ensures unit.Valid()
    ensures NoStrikeAdded(old(unit.effects), unit.effects)
    ensures (r, unit.Snap()) == WorkResourceTurn(env, resource, old(unit.Snap()))
    ensures unit.destroyed == old(unit.destroyed)
  {
    unit.HeadTowards(env.nav, resource);
    if unit.currentMovement > 0.0 && HasWorkableSeaResource(unit.position) {
      var found := FishingBoatsAction(env, unit.State());
      if found.None? {
        return Err(NoSuchAction("Create Fishing Boats"));
      }
      unit.Execute(found.value);
    }
    return Ok(());
  }

  /** What `automateWorkBoats` may leave: the boat works the nearest
      reachable sea resource if there is one, and then, unless that failed,
      explores with the distance map from where it stands. */
  predicate WorkedBoat(w: World, civ: Civ, env: Env, b: Snapshot, r: Result<(), Fault>, a: Snapshot) {
    match ReachableResource(w, env.nav, b.state)
    case None =>
      var dist := env.nav.distanceToTiles(b.state.position, b.state.movement);
      r == Ok(()) && Exploration.Explored(w, civ, env.nav, dist, b, a)
    case Some(resource) =>
      var worked := WorkResourceTurn(env, resource, b);
      var m := worked.1;
      if worked.0.Err? then r == worked.0 && a == m
      else
        var dist := env.nav.distanceToTiles(m.state.position, m.state.movement);
        r == Ok(()) && Exploration.Explored(w, civ, env.nav, dist, m, a)
  }

  /** `automateWorkBoats`. */
  method AutomateWorkBoats(unit: MapUnit, w: World, civ: Civ, env: Env) returns (r: Result<(), Fault>)
    requires unit.Valid() && env.Valid()
    modifies unit
    ensures unit.Valid()
    ensures NoStrikeAdded(old(unit.effects), unit.effects)
    ensures WorkedBoat(w, civ, env, old(unit.Snap()), r, unit.Snap())
    ensures unit.destroyed == old(unit.destroyed)
  {
    var resource := ReachableResource(w, env.nav, unit.State());
    ghost var before := unit.effects;
    if resource.Some? {
      r := WorkResource(unit, env, resource.value);
      if r.Err? {
        return;
      }
    }
    ghost var mid := unit.effects;
    DistancesAffordable(env, unit.position, unit.currentMovement);
    Explore(unit, w, civ, env, env.nav.distanceToTiles(unit.position, unit.currentMovement));
    NoStrikeAddedTrans(before, mid, unit.effects);
    r := Ok(());
  }

  // ------------------------------------------------------------ the turn

  /** Which rule of `automateUnitMoves` handled the unit's turn. `Healed`
      records the health threshold of the healing branch taken. */
  datatype Step =
    | SettlerTurn(settler: SettlerStep)
    | WorkerTurn
    | WorkBoatTurn
    | GreatPersonIdle
    | RuinTookLastMove
    | Upgraded
    | AccompaniedSettler
    | Healed(below: int)
    | Attacked
    | Garrisoned
    | AdvancedOnEnemy
    | HeadedForEnemyCity
    | Explored

  /** The health bands of the rule order: below 50 a unit only heals; from
      50 it may attack or garrison, below 80 it heals otherwise; from 80 it
      may advance, below 100 it heals otherwise; only at full health does it
      march on enemy cities or explore. */
  predicate WithinHealthBand(step: Step, health: int) {
    match step
    case Healed(below) =>
      || (below == 50 && health < 50)
      || (below == 80 && 50 <= health < 80)
      || (below == 100 && 80 <= health < 100)
    case Attacked => 50 <= health
    case Garrisoned => 50 <= health
    case AdvancedOnEnemy => 80 <= health
    case HeadedForEnemyCity => 100 <= health
    case Explored => 100 <= health
    case _ => true
  }

  /** The rules from "heal below 50" on, as a decision on the unit's state:
      each rule applies exactly when its own condition holds and no earlier
      rule applies. */
  function MilitaryRule(w: World, civ: Civ, env: Env, unit: UnitState, dist: seq<Reach>): (step: Step)
    ensures WithinHealthBand(step, unit.health)
    ensures var attack := AttackChoice(w, civ, env, unit, dist);
            var plan := GarrisonPlanFor(w, env.nav, unit);
            var enemy := ClosestEnemy(w, env.nav, unit);
            var city := EnemyCityTarget(w, civ, env.nav, unit);
            && (step == Healed(50) <==> unit.health < 50)
            && (step == Attacked <==> 50 <= unit.health && attack.Some?)
            && (step == Garrisoned <==> 50 <= unit.health && attack.None? && plan != NoGarrison)
            && (step == Healed(80) <==> 50 <= unit.health < 80 && attack.None? && plan == NoGarrison)
            && (step == AdvancedOnEnemy <==>
                  80 <= unit.health && attack.None? && plan == NoGarrison && enemy.Some?)
            && (step == Healed(100) <==>
                  80 <= unit.health < 100 && attack.None? && plan == NoGarrison && enemy.None?)
            && (step == HeadedForEnemyCity <==>
                  100 <= unit.health && attack.None? && plan == NoGarrison && enemy.None? && city.Some?)
            && (step == Explored <==>
                  100 <= unit.health && attack.None? && plan == NoGarrison && enemy.None? && city.None?)
  {
    if unit.health < 50 then Healed(50)
    else if AttackChoice(w, civ, env, unit, dist).Some? then Attacked
    else if GarrisonPlanFor(w, env.nav, unit) != NoGarrison then Garrisoned
    else if unit.health < 80 then Healed(80)
    else if ClosestEnemy(w, env.nav, unit).Some? then AdvancedOnEnemy
    else if unit.health < 100 then Healed(100)
    else if EnemyCityTarget(w, civ, env.nav, unit).Some? then HeadedForEnemyCity
    else Explored
  }

  /** What the rule `MilitaryRule` picks does to the unit, from `b` to `a`. */
  predicate FollowsMilitaryRule(w: World, civ: Civ, env: Env, dist: seq<Reach>, b: Snapshot, a: Snapshot) {
    match MilitaryRule(w, civ, env, b.state, dist)
    case Healed(_) => a == HealTurn(w, env.nav, dist, b)
    case Attacked =>
      var attack := AttackChoice(w, civ, env, b.state, dist);
      attack.Some? && a == AttackTurn(env, attack.value, b)
    case Garrisoned => a == GarrisonTurn(w, env.nav, b)
    case AdvancedOnEnemy =>
      var enemy := ClosestEnemy(w, env.nav, b.state);
      enemy.Some? && a == b.HeadTowards(env.nav, enemy.value)
    case HeadedForEnemyCity =>
      var city := EnemyCityTarget(w, civ, env.nav, b.state);
      city.Some? && a == b.HeadTowards(env.nav, city.value)
    case Explored => Exploration.Explored(w, civ, env.nav, dist, b, a)
    case _ => false
  }

  /** Only the attack rule strikes; every rule leaves health, kind and side
      as they were. */
  lemma MilitaryRuleStrikesOnlyInAttack(w: World, civ: Civ, env: Env, dist: seq<Reach>, b: Snapshot, a: Snapshot)
    requires FollowsMilitaryRule(w, civ, env, dist, b, a)
    ensures MilitaryRule(w, civ, env, b.state, dist) != Attacked ==> NoStrikeAdded(b.effects, a.effects)
    ensures a.state.health == b.state.health && a.state.base == b.state.base && a.state.civ == b.state.civ
  {
    match MilitaryRule(w, civ, env, b.state, dist)
    case Healed(_) => HealTurnNeverStrikes(w, env.nav, dist, b);
    case Attacked =>
    case Garrisoned => GarrisonTurnNeverStrikes(w, env.nav, b);
    case AdvancedOnEnemy => HeadTowardsNeverStrikes(b, env.nav, ClosestEnemy(w, env.nav, b.state).value);
    case HeadedForEnemyCity =>
      HeadTowardsNeverStrikes(b, env.nav, EnemyCityTarget(w, civ, env.nav, b.state).value);
    case Explored => ExploredNeverStrikes(w, civ, env.nav, dist, b, a);
  }

  /** Heading somewhere, garrisoning and healing never strike and leave
      health, kind and side alone. */
  lemma HeadTowardsNeverStrikes(b: Snapshot, nav: Navigator, target: Tile)
    ensures NoStrikeAdded(b.effects, b.HeadTowards(nav, target).effects)
    ensures var a := b.HeadTowards(nav, target).state;
            a.health == b.state.health && a.base == b.state.base && a.civ == b.state.civ
  {
    assert b.HeadTowards(nav, target).effects[..|b.effects|] == b.effects;
  }

  lemma GarrisonTurnNeverStrikes(w: World, nav: Navigator, b: Snapshot)
    ensures NoStrikeAdded(b.effects, GarrisonTurn(w, nav, b).effects)
    ensures var a := GarrisonTurn(w, nav, b).state;
            a.health == b.state.health && a.base == b.state.base && a.civ == b.state.civ
  {
    if GarrisonPlanFor(w, nav, b.state).GoToCity? {
      HeadTowardsNeverStrikes(b, nav, GarrisonPlanFor(w, nav, b.state).city);
    }
  }

  lemma HealTurnNeverStrikes(w: World, nav: Navigator, dist: seq<Reach>, b: Snapshot)
    ensures NoStrikeAdded(b.effects, HealTurn(w, nav, dist, b).effects)
  {
    var a := HealTurn(w, nav, dist, b);
    if a.effects != b.effects {
      var e :| e in dist && a.effects == b.effects + [Moved(e.tile)];
      assert a.effects[..|b.effects|] == b.effects;
    }
  }

  /** Below 50 health the unit does nothing but heal: it neither strikes nor
      heads anywhere, and it moves, if at all, onto a reachable tile of
      strictly better healing rank. */
  lemma WoundedUnitOnlyHeals(w: World, civ: Civ, env: Env, dist: seq<Reach>, b: Snapshot, a: Snapshot)
    requires b.state.health < 50 && FollowsMilitaryRule(w, civ, env, dist, b, a)
    ensures a.state.position != b.state.position ==>
              RankTileForHealing(w, a.state.position, b.state.civ) > RankTileForHealing(w, b.state.position, b.state.civ)
    ensures a.effects == b.effects || exists e :: e in dist && a.effects == b.effects + [Moved(e.tile)]
    ensures NoStrikeAdded(b.effects, a.effects)
  {
    HealTurnNeverStrikes(w, env.nav, dist, b);
  }

  /** The rules after the attack: garrison, heal below 80, advance, heal
      below 100, march on an enemy city, explore. */
  method HoldOrAdvance(unit: MapUnit, w: World, civ: Civ, env: Env, dist: seq<Reach>) returns (step: Step)
    requires unit.Valid() && env.Valid() && Affordable(dist, unit.currentMovement)
    requires 50 <= unit.health && AttackChoice(w, civ, env, unit.State(), dist).None?
    modifies unit
    ensures unit.Valid()
    ensures NoStrikeAdded(old(unit.effects), unit.effects)
    ensures step == MilitaryRule(w, civ, env, old(unit.State()), dist) && step != RuinTookLastMove
    ensures FollowsMilitaryRule(w, civ, env, dist, old(unit.Snap()), unit.Snap())
    ensures unit.health == old(unit.health) && unit.destroyed == old(unit.destroyed)
  {
    var garrisoned := TryGarrisoningUnit(unit, w, env);
    if garrisoned {
      return Garrisoned;
    }
    if unit.health < 80 {
      HealUnit(unit, w, env.nav, dist);
      return Healed(80);
    }
    step := AdvanceOrExplore(unit, w, civ, env, dist);
  }

  /** The rules from 80 health on, when there is nothing to attack and no
      city to garrison: advance, heal below 100, march on an enemy city,
      explore. */
  method AdvanceOrExplore(unit: MapUnit, w: World, civ: Civ, env: Env, dist: seq<Reach>) returns (step: Step)
    requires unit.Valid() && env.Valid() && Affordable(dist, unit.currentMovement)
    requires 80 <= unit.health && AttackChoice(w, civ, env, unit.State(), dist).None?
    requires GarrisonPlanFor(w, env.nav, unit.State()) == NoGarrison
    modifies unit
    ensures unit.Valid()
    ensures NoStrikeAdded(old(unit.effects), unit.effects)
    ensures step == MilitaryRule(w, civ, env, old(unit.State()), dist) && step != RuinTookLastMove
    ensures FollowsMilitaryRule(w, civ, env, dist, old(unit.Snap()), unit.Snap())
    ensures unit.health == old(unit.health) && unit.destroyed == old(unit.destroyed)
  {
    ghost var before := unit.Snap();
    var advanced := TryAdvanceTowardsCloseEnemy(unit, w, env);
    if advanced {
      assert MilitaryRule(w, civ, env, before.state, dist) == AdvancedOnEnemy;
      return AdvancedOnEnemy;
    }
    if unit.health < 100 {
      assert MilitaryRule(w, civ, env, before.state, dist) == Healed(100);
      HealUnit(unit, w, env.nav, dist);
      return Healed(100);
    }
    var marched := TryHeadTowardsEnemyCity(unit, w, civ, env);
    if marched {
      assert MilitaryRule(w, civ, env, before.state, dist) == HeadedForEnemyCity;
      return HeadedForEnemyCity;
    }
    assert MilitaryRule(w, civ, env, before.state, dist) == Explored;
    Explore(unit, w, civ, env, dist);
    ExploredNeverStrikes(w, civ, env.nav, dist, before, unit.Snap());
    return Explored;
  }

  /** The rules from "heal below 50" on. */
  method FightOrHeal(unit: MapUnit, w: World, civ: Civ, env: Env, dist: seq<Reach>) returns (step: Step)
    requires unit.Valid() && env.Valid() && Affordable(dist, unit.currentMovement)
    modifies unit
    ensures unit.Valid()
    ensures step == MilitaryRule(w, civ, env, old(unit.State()), dist) && step != RuinTookLastMove
    ensures FollowsMilitaryRule(w, civ, env, dist, old(unit.Snap()), unit.Snap())
    ensures step != Attacked ==> NoStrikeAdded(old(unit.effects), unit.effects)
    ensures step == Attacked ==>
              var choice := AttackChoice(w, civ, env, old(unit.State()), dist);
              && unit.position == choice.value.tileToAttackFrom.tile
              && unit.effects == old(unit.effects) + AttackEffects(env, choice.value, old(unit.currentMovement))
    ensures unit.health == old(unit.health) && unit.destroyed == old(unit.destroyed)
  {
    if unit.health < 50 {
      HealUnit(unit, w, env.nav, dist);
      return Healed(50);
    }
    var attacked := TryAttackNearbyEnemy(unit, w, civ, env, dist);
    if attacked {
      return Attacked;
    }
    step := HoldOrAdvance(unit, w, civ, env, dist);
  }

  /** What the rules after the ruins leave, from `b` to `a`: the upgrade
      first (an unknown upgrade target is the error), then accompanying a
      settler, then the rule `MilitaryRule` picks. `unitActions` are the
      actions listed before the ruin move. */
  predicate AfterRuin(w: World, civ: Civ, env: Env, ruleset: map<string, BaseUnit>, unitActions: seq<UnitAction>,
                      dist: seq<Reach>, b: Snapshot, r: Result<Step, Fault>, a: Snapshot) {
    var upgrade := UpgradeFor(b.state, civ, ruleset, unitActions);
    if upgrade.Err? then r == Err(upgrade.error) && a == b
    else if upgrade.value.Some? then r == Ok(Upgraded) && a == b.Perform(upgrade.value.value)
    else match SettlerToAccompany(civ, env.nav, b.state)
      case Some(settler) => r == Ok(AccompaniedSettler) && a == b.HeadTowards(env.nav, settler.tile)
      case None => r == Ok(MilitaryRule(w, civ, env, b.state, dist)) && FollowsMilitaryRule(w, civ, env, dist, b, a)
  }

  /** The rules after the ruins. */
  method TurnAfterRuin(unit: MapUnit, w: World, civ: Civ, env: Env, ruleset: map<string, BaseUnit>,
                       unitActions: seq<UnitAction>, dist: seq<Reach>)
    returns (r: Result<Step, Fault>)
    requires unit.Valid() && env.Valid() && Affordable(dist, unit.currentMovement)
    requires forall i :: 0 <= i < |unitActions| ==> 0.0 <= unitActions[i].movementAfter
    modifies unit
    ensures unit.Valid()
    ensures r != Ok(Attacked) ==> NoStrikeAdded(old(unit.effects), unit.effects)
    ensures r != Ok(RuinTookLastMove)
    ensures r.Ok? ==> WithinHealthBand(r.value, old(unit.health))
    ensures var upgrade := UpgradeFor(old(unit.State()), civ, ruleset, unitActions);
            && (r.Err? <==> upgrade.Err?)
            && (r.Err? ==> r.error == upgrade.error)
            && (r == Ok(Upgraded) <==> upgrade.Ok? && upgrade.value.Some?)
            && (r == Ok(AccompaniedSettler) <==>
                  upgrade == Ok(None) && SettlerToAccompany(civ, env.nav, old(unit.State())).Some?)
    ensures AfterRuin(w, civ, env, ruleset, unitActions, dist, old(unit.Snap()), r, unit.Snap())
    ensures unit.health == old(unit.health) && unit.destroyed == old(unit.destroyed)
  {
    var upgraded := TryUpgradeUnit(unit, civ, ruleset, unitActions);
    if upgraded.Err? {
      return Err(upgraded.error);
    }
    if upgraded.value {
      return Ok(Upgraded);
    }
    var accompanied := TryAccompanySettler(unit, civ, env);
    if accompanied {
      return Ok(AccompaniedSettler);
    }
    var step := FightOrHeal(unit, w, civ, env, dist);
    return Ok(step);
  }

  /** The ruins rule: go to a ruin in reach; when that used up the unit's
      movement the turn ends, otherwise the distances are computed afresh. */
  method VisitRuins(unit: MapUnit, env: Env) returns (turnOver: bool, dist: seq<Reach>)
    requires unit.Valid() && env.Valid()
    modifies unit
    ensures unit.Valid()
    ensures NoStrikeAdded(old(unit.effects), unit.effects)
    ensures Affordable(dist, unit.currentMovement)
    ensures var ruin := RuinTile(env.nav, old(unit.position), env.nav.distanceToTiles(old(unit.position), old(unit.currentMovement)));
            && unit.Snap() == (if ruin.Some? then old(unit.Snap()).MoveTo(ruin.value) else old(unit.Snap()))
            && (turnOver <==> ruin.Some? && unit.currentMovement == 0.0)
            && (turnOver <==> ruin.Some? && ruin.value.cost == old(unit.currentMovement))
            && dist == env.nav.distanceToTiles(unit.position, unit.currentMovement)
    ensures unit.destroyed == old(unit.destroyed)
  {
    dist := env.nav.distanceToTiles(unit.position, unit.currentMovement);
    DistancesAffordable(env, unit.position, unit.currentMovement);
    var wentToRuin := TryGoToRuin(unit, env.nav, dist);
    turnOver := false;
    if wentToRuin {
      if unit.currentMovement == 0.0 {
        turnOver := true;
      }
      dist := env.nav.distanceToTiles(unit.position, unit.currentMovement);
      DistancesAffordable(env, unit.position, unit.currentMovement);
    }
  }

  /** What the turn of a unit that is no settler, worker, work boat or great
      person leaves, from `b` to `a`: a ruin in reach first, ending the turn
      there if it took all the movement; then the remaining rules from where
      the unit stands, with the distance map computed afresh after a ruin
      move and the unit actions listed before it. */
  predicate MilitaryTurn(w: World, civ: Civ, env: Env, ruleset: map<string, BaseUnit>,
                         b: Snapshot, r: Result<Step, Fault>, a: Snapshot) {
    var dist := env.nav.distanceToTiles(b.state.position, b.state.movement);
    var unitActions := env.actionsAt(b.state.position, b.state.movement);
    match RuinTile(env.nav, b.state.position, dist)
    case None => AfterRuin(w, civ, env, ruleset, unitActions, dist, b, r, a)
    case Some(ruin) =>
      var m := b.MoveTo(ruin);
      if m.state.movement == 0.0 then r == Ok(RuinTookLastMove) && a == m
      else AfterRuin(w, civ, env, ruleset, unitActions,
                     env.nav.distanceToTiles(m.state.position, m.state.movement), m, r, a)
  }

  /** The turn of a unit that is no settler, worker, work boat or great person. */
  method AutomateMilitaryUnit(unit: MapUnit, w: World, civ: Civ, env: Env, ruleset: map<string, BaseUnit>)
    returns (r: Result<Step, Fault>)
    requires unit.Valid() && env.Valid()
    modifies unit
    ensures unit.Valid()
    ensures r.Ok? ==> WithinHealthBand(r.value, old(unit.health))
    ensures r != Ok(Attacked) ==> NoStrikeAdded(old(unit.effects), unit.effects)
    ensures r.Err? ==> r.error.UnknownUnitType?
    ensures var ruin := RuinTile(env.nav, old(unit.position), env.nav.distanceToTiles(old(unit.position), old(unit.currentMovement)));
            r == Ok(RuinTookLastMove) <==> ruin.Some? && ruin.value.cost == old(unit.currentMovement)
    ensures MilitaryTurn(w, civ, env, ruleset, old(unit.Snap()), r, unit.Snap())
    ensures unit.health == old(unit.health) && unit.destroyed == old(unit.destroyed)
  {
    var unitActions := env.actionsAt(unit.position, unit.currentMovement);
    ghost var before := unit.effects;
    var turnOver, dist := VisitRuins(unit, env);
    if turnOver {
      return Ok(RuinTookLastMove);
    }
    ghost var mid := unit.effects;
    r := TurnAfterRuin(unit, w, civ, env, ruleset, unitActions, dist);
    if r != Ok(Attacked) {
      NoStrikeAddedTrans(before, mid, unit.effects);
    }
  }

  /** `automateUnitMoves`. Settlers, workers and work boats have rules of
      their own, great people stay idle, every other unit follows the rule
      order of `MilitaryTurn`. */
  method AutomateUnitMoves(unit: MapUnit, w: World, civ: Civ, env: Env, ruleset: map<string, BaseUnit>)
    returns (r: Result<Step, Fault>)
    requires unit.Valid() && env.Valid() && w.Metric() && civ.id == unit.civ
    modifies unit
    ensures unit.Valid()
    ensures r.Ok? ==> WithinHealthBand(r.value, old(unit.health))
    ensures r != Ok(Attacked) ==> NoStrikeAdded(old(unit.effects), unit.effects)
    ensures unit.base.name == "Settler" ==>
              && ((r.Ok? && r.value.SettlerTurn?) || r == Err(NoSuchAction("Found city")))
              && Settled(w, civ, env, old(unit.Snap()), (if r.Ok? then Ok(r.value.settler) else Err(r.error)),
                         unit.Snap())
    ensures unit.base.name == "Worker" ==>
              && r == Ok(WorkerTurn) && unit.State() == old(unit.State())
              && unit.effects == old(unit.effects) + [WorkerAutomation]
    ensures unit.base.name == "Work Boats" ==>
              && (r == Ok(WorkBoatTurn) || r == Err(NoSuchAction("Create Fishing Boats")))
              && WorkedBoat(w, civ, env, old(unit.Snap()), (if r.Ok? then Ok(()) else Err(r.error)), unit.Snap())
    ensures unit.base.name !in {"Settler", "Worker", "Work Boats"} && StartsWith(unit.base.name, "Great") ==>
              && r == Ok(GreatPersonIdle) && unit.State() == old(unit.State()) && unit.effects == old(unit.effects)
    ensures unit.base.name !in {"Settler", "Worker", "Work Boats"} && !StartsWith(unit.base.name, "Great") ==>
              && (r.Err? ==> r.error.UnknownUnitType?)
              && MilitaryTurn(w, civ, env, ruleset, old(unit.Snap()), r, unit.Snap())
    ensures unit.destroyed == old(unit.destroyed)
  {
    if unit.base.name == "Settler" {
      var settled := AutomateSettlerActions(unit, w, civ, env);
      return if settled.Ok? then Ok(SettlerTurn(settled.value)) else Err(settled.error);
    }
    if unit.base.name == "Worker" {
      unit.DelegateToWorkerAutomation();
      return Ok(WorkerTurn);
    }
    if unit.base.name == "Work Boats" {
      var worked := AutomateWorkBoats(unit, w, civ, env);
      return if worked.Ok? then Ok(WorkBoatTurn) else Err(worked.error);
    }
    if StartsWith(unit.base.name, "Great") {
      return Ok(GreatPersonIdle);
    }
    r := AutomateMilitaryUnit(unit, w, civ, env, ruleset);
  }
}
