/** `tryGarrisoningUnit`: keep or send a non-melee unit into a city. */
module Garrison {
  import opened Wrappers
  import opened Select
  import opened Game
  import opened Units

  /** `cityThatNeedsDefendingInWartime`: damaged, or within 5 of a city of a
      civilization the unit's civilization is at war with. */
  predicate NeedsDefendingInWartime(w: World, civ: CivId, city: Tile)
    requires city.IsCityCenter()
  {
    city.city.value.health < city.city.value.maxHealth
    || exists enemy :: enemy in w.AllCities() && w.AtWar(civ, enemy.city.value.civ)
                       && w.distance(city.position, enemy.position) <= 5
  }

  /** The unit's cities with no military unit that it may enter and can reach. */
  function ReachableCitiesWithoutUnits(w: World, nav: Navigator, unit: UnitState): (r: seq<Tile>)
    ensures forall c :: c in r <==> c in w.Cities(unit.civ) && !c.hasMilitaryUnit
                                     && nav.CanMoveTo(unit.position, c) && nav.canReach(unit.position, c)
  {
    Filter(w.Cities(unit.civ), (c: Tile) => !c.hasMilitaryUnit && nav.CanMoveTo(unit.position, c) && nav.canReach(unit.position, c))
  }

  /** The cities worth moving to: all of them in peace, those needing defence in war. */
  function GarrisonTargets(w: World, nav: Navigator, unit: UnitState): (r: seq<Tile>)
    ensures forall c :: c in r <==> c in ReachableCitiesWithoutUnits(w, nav, unit)
                                     && (w.IsAtWar(unit.civ) ==> NeedsDefendingInWartime(w, unit.civ, c))
  {
    var cities := ReachableCitiesWithoutUnits(w, nav, unit);
    if !w.IsAtWar(unit.civ) then cities
    else Filter(cities, (c: Tile) => c.IsCityCenter() && NeedsDefendingInWartime(w, unit.civ, c))
  }

  /** Staying put counts as garrisoning: on a city centre, which in wartime
      must need defending. */
  predicate StaysInCity(w: World, unit: UnitState) {
    unit.position.IsCityCenter()
    && (w.IsAtWar(unit.civ) ==> NeedsDefendingInWartime(w, unit.civ, unit.position))
  }

  datatype GarrisonPlan = NoGarrison | StayInCity | GoToCity(city: Tile)

  /** The decision of `tryGarrisoningUnit`. Melee units never garrison; in
      peace the nearest city by distance is chosen, in war the nearest by
      path length among those needing defence. */
  function GarrisonPlanFor(w: World, nav: Navigator, unit: UnitState): (r: GarrisonPlan)
    ensures r == NoGarrison <==> unit.base.isMelee || (!StaysInCity(w, unit) && GarrisonTargets(w, nav, unit) == [])
    ensures r == StayInCity ==> !unit.base.isMelee && StaysInCity(w, unit)
    ensures r.GoToCity? ==> !unit.base.isMelee && !StaysInCity(w, unit) && r.city in GarrisonTargets(w, nav, unit)
    ensures r.GoToCity? && !w.IsAtWar(unit.civ) ==>
              forall c :: c in GarrisonTargets(w, nav, unit) ==>
                w.distance(r.city.position, unit.position.position) <= w.distance(c.position, unit.position.position)
    ensures r.GoToCity? && w.IsAtWar(unit.civ) ==>
              forall c :: c in GarrisonTargets(w, nav, unit) ==>
                nav.shortestPathSize(unit.position, r.city) <= nav.shortestPathSize(unit.position, c)
  {
    if unit.base.isMelee then NoGarrison
    else if StaysInCity(w, unit) then StayInCity
    else
      var cities := GarrisonTargets(w, nav, unit);
      var closest :=
        if !w.IsAtWar(unit.civ)
        then MinBy(cities, (c: Tile) => w.distance(c.position, unit.position.position) as real)
        else MinBy(cities, (c: Tile) => nav.shortestPathSize(unit.position, c) as real);
      if closest.Some? then GoToCity(closest.value) else NoGarrison
  }

  /** What `tryGarrisoningUnit` leaves: a unit told to move heads for its
      city; one that stays or does not garrison is left as it was. */
  function GarrisonTurn(w: World, nav: Navigator, b: Snapshot): Snapshot {
    match GarrisonPlanFor(w, nav, b.state)
    case GoToCity(city) => b.HeadTowards(nav, city)
    case _ => b
  }

  /** `tryGarrisoningUnit`. */
  method TryGarrisoningUnit(unit: MapUnit, w: World, env: Env) returns (handled: bool)
    requires unit.Valid() && env.Valid()
    modifies unit
    ensures unit.Valid()
    ensures NoStrikeAdded(old(unit.effects), unit.effects)
    ensures handled == (GarrisonPlanFor(w, env.nav, old(unit.State())) != NoGarrison)
    ensures unit.Snap() == GarrisonTurn(w, env.nav, old(unit.Snap()))
    ensures unit.destroyed == old(unit.destroyed)
  {
    var plan := GarrisonPlanFor(w, env.nav, unit.State());
    match plan
    case NoGarrison => return false;
    case StayInCity => return true;
    case GoToCity(city) =>
      unit.HeadTowards(env.nav, city);
      return true;
  }
}
