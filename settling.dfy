/** `automateSettlerActions`: choose a city site around an escorted settler,
    walk there and found the city. */
module Settling {
  import opened Wrappers
  import opened Select
  import opened Game
  import opened Units
  import opened Ranking
  import opened Exploration

  /** `tilesNearCities`: every tile within 3 of a city centre of any civilization. */
  function TilesNearCities(w: World): (r: set<Tile>)
    ensures forall t :: t in r <==> exists c :: c in w.AllCities() && t in w.TilesInDistance(c, 3)
  {
    set c, t | c in w.AllCities() && t in w.TilesInDistance(c, 3) :: t
  }

  /** `nearbyTileRankings`: `rankTile` of every tile within 7 of the settler. */
  function NearbyTileRankings(w: World, env: Env, from: Tile): (r: map<Tile, real>)
    ensures forall t :: t in r <==> t in w.TilesInDistance(from, 7)
    ensures forall t :: t in r ==> r[t] == env.rankTile(t)
  {
    map t | t in w.TilesInDistance(from, 7) :: env.rankTile(t)
  }

  /** `possibleCityLocations`: tiles within 5 that the settler may enter (or
      stands on) and that are not near a city. */
  function PossibleCityLocations(w: World, nav: Navigator, unit: UnitState): (r: seq<Tile>)
    ensures forall t :: t in r <==> t in w.TilesInDistance(unit.position, 5)
                                     && (nav.CanMoveTo(unit.position, t) || unit.position == t)
                                     && t !in TilesNearCities(w)
  {
    Filter(w.TilesInDistance(unit.position, 5),
           (t: Tile) => (nav.CanMoveTo(unit.position, t) || unit.position == t) && t !in TilesNearCities(w))
  }

  /** A site within 5 of the settler has a ranking for every tile within 2 of
      it, because those lie within 7 of the settler. */
  lemma SiteIsRanked(w: World, env: Env, from: Tile, site: Tile)
    requires w.Metric() && site in w.TilesInDistance(from, 5)
    ensures RankedAround(w, site, NearbyTileRankings(w, env, from))
  {
    InDistance(w, from, 5, site);
    forall t | t in w.tiles && 1 <= w.distance(site.position, t.position) <= 2
      ensures t in NearbyTileRankings(w, env, from)
    {
      assert w.distance(from.position, t.position)
             <= w.distance(from.position, site.position) + w.distance(site.position, t.position);
      InDistance(w, from, 7, t);
    }
  }

  /** The city-centre rank of a site whose surroundings are ranked (every
      site within 5 of the settler, lemma SiteIsRanked); 0 elsewhere. */
  function SiteRank(w: World, site: Tile, rankings: map<Tile, real>): real {
    if RankedAround(w, site, rankings) then RankTileAsCityCenter(w, site, rankings) else 0.0
  }

  /** `bestCityLocation`: among the possible locations the settler can reach,
      one of greatest rank. It is none exactly when no possible location is
      reachable, and it is never within 3 of a city. */
  function BestCityLocation(w: World, env: Env, unit: UnitState): (r: Option<Tile>)
    requires w.Metric()
    ensures r.None? <==> forall t :: t in PossibleCityLocations(w, env.nav, unit) ==> !env.nav.canReach(unit.position, t)
    ensures r.Some? ==> r.value in PossibleCityLocations(w, env.nav, unit) && env.nav.canReach(unit.position, r.value)
    ensures r.Some? ==> forall c :: c in w.AllCities() ==> w.distance(c.position, r.value.position) > 3
  {
    var rankings := NearbyTileRankings(w, env, unit.position);
    var sites := Filter(PossibleCityLocations(w, env.nav, unit), (t: Tile) => env.nav.canReach(unit.position, t));
    var best := MaxBy(sites, (t: Tile) => SiteRank(w, t, rankings));
    if best.Some? then FarFromCities(w, env.nav, unit, best.value); best
    else best
  }

  /** A possible location is more than 3 from every city. */
  lemma FarFromCities(w: World, nav: Navigator, unit: UnitState, site: Tile)
    requires site in PossibleCityLocations(w, nav, unit)
    ensures forall c :: c in w.AllCities() ==> w.distance(c.position, site.position) > 3
  {
    InDistance(w, unit.position, 5, site);
    forall c | c in w.AllCities() ensures w.distance(c.position, site.position) > 3 {
      InDistance(w, c, 3, site);
    }
  }

  /** The chosen location has the greatest city-centre rank among the
      reachable possible locations, and every one of them is ranked. */
  lemma BestCityLocationIsBest(w: World, env: Env, unit: UnitState, s: Tile)
    requires w.Metric() && BestCityLocation(w, env, unit).Some?
    requires s in PossibleCityLocations(w, env.nav, unit) && env.nav.canReach(unit.position, s)
    ensures var rankings := NearbyTileRankings(w, env, unit.position);
            && RankedAround(w, s, rankings)
            && RankedAround(w, BestCityLocation(w, env, unit).value, rankings)
            && RankTileAsCityCenter(w, s, rankings)
               <= RankTileAsCityCenter(w, BestCityLocation(w, env, unit).value, rankings)
  {
    var best := BestCityLocation(w, env, unit).value;
    SiteIsRanked(w, env, unit.position, s);
    SiteIsRanked(w, env, unit.position, best);
  }

  /** The check before founding (a thrown "City within distance"): no tile
      within 3 of the chosen site is a city centre. It holds because the
      site is more than 3 from every city and distance is symmetric. */
  lemma NoCityWithinDistance(w: World, env: Env, unit: UnitState)
    requires w.Metric() && BestCityLocation(w, env, unit).Some?
    ensures forall t :: t in w.TilesInDistance(BestCityLocation(w, env, unit).value, 3) ==> !t.IsCityCenter()
  {
    var site := BestCityLocation(w, env, unit).value;
    forall t | t in w.TilesInDistance(site, 3) ensures !t.IsCityCenter() {
      InDistance(w, site, 3, t);
      assert w.distance(t.position, site.position) == w.distance(site.position, t.position);
    }
  }

  /** Which of its branches `automateSettlerActions` took. */
  datatype SettlerStep = WaitedForEscort | ExploredInstead | HeadedToSite | FoundedCity

  /** The "Found city" action on offer in the unit's state, if any. */
  function FoundCityAction(env: Env, s: UnitState): Option<UnitAction> {
    FirstWhere(env.actionsAt(s.position, s.movement), (a: UnitAction) => a.name == "Found city")
  }

  /** Executing "Found city", or the failure of the source's `first { }`
      when it is not offered, which leaves the unit as it was. */
  function FoundCityTurn(env: Env, b: Snapshot): (r: (Result<SettlerStep, Fault>, Snapshot))
    ensures r.0.Ok? <==> FoundCityAction(env, b.state).Some?
    ensures r.0.Ok? ==> && r.0.value == FoundedCity
                        && r.1.state == b.state.(movement := FoundCityAction(env, b.state).value.movementAfter)
                        && r.1.effects == b.effects + [Executed("Found city")]
    ensures r.0.Err? ==> r.0.error == NoSuchAction("Found city") && r.1 == b
  {
    match FoundCityAction(env, b.state)
    case None => (Err(NoSuchAction("Found city")), b)
    case Some(a) => (Ok(FoundedCity), b.Perform(a))
  }

  /** The last branch of `automateSettlerActions`: a settler on the site
      founds the city; one elsewhere heads for the site and founds the city
      only if it arrives there with movement left. */
  function SettleTurn(env: Env, site: Tile, b: Snapshot): (r: (Result<SettlerStep, Fault>, Snapshot))
    ensures r.0 == Ok(FoundedCity) || r.0 == Ok(HeadedToSite) || r.0 == Err(NoSuchAction("Found city"))
    ensures r.0 == Ok(HeadedToSite) ==>
              b.state.position != site && r.1 == b.HeadTowards(env.nav, site)
              && !(r.1.state.movement > 0.0 && r.1.state.position == site)
    ensures r.0 != Ok(HeadedToSite) ==>
              var walk := if b.state.position != site then [Headed(site)] else [];
              && r.1.state.position == site
              && r.1.effects == b.effects + walk + (if r.0.Ok? then [Executed("Found city")] else [])
    ensures r.1.state.health == b.state.health && r.1.state.action == b.state.action
  {
    if b.state.position == site then FoundCityTurn(env, b)
    else
      var walked := b.HeadTowards(env.nav, site);
      if walked.state.movement > 0.0 && walked.state.position == site then FoundCityTurn(env, walked)
      else (Ok(HeadedToSite), walked)
  }

  /** Executes "Found city". */
  method FoundCity(unit: MapUnit, env: Env) returns (r: Result<SettlerStep, Fault>)
    requires unit.Valid() && env.Valid()
    modifies unit
    ensures unit.Valid()
    ensures (r, unit.Snap()) == FoundCityTurn(env, old(unit.Snap()))
    ensures unit.destroyed == old(unit.destroyed)
  {
    var found := FoundCityAction(env, unit.State());
    if found.None? {
      return Err(NoSuchAction("Found city"));
    }
    unit.Execute(found.value);
    return Ok(FoundedCity);
  }

  /** The last branch of `automateSettlerActions`. */
  method SettleAt(unit: MapUnit, env: Env, site: Tile) returns (r: Result<SettlerStep, Fault>)
    requires unit.Valid() && env.Valid()
    modifies unit
    ensures unit.Valid()
    ensures NoStrikeAdded(old(unit.effects), unit.effects)
    ensures (r, unit.Snap()) == SettleTurn(env, site, old(unit.Snap()))
    ensures unit.destroyed == old(unit.destroyed)
  {
    if unit.position == site {
      r := FoundCity(unit, env);
    } else {
      unit.HeadTowards(env.nav, site);
      if unit.currentMovement > 0.0 && unit.position == site {
        r := FoundCity(unit, env);
      } else {
        r := Ok(HeadedToSite);
      }
    }
  }

  /** What `automateSettlerActions` may leave: a settler without escort
      stays; without a reachable site it explores with a fresh distance map;
      otherwise it settles on the best site. */
  predicate Settled(w: World, civ: Civ, env: Env, b: Snapshot, r: Result<SettlerStep, Fault>, a: Snapshot)
    requires w.Metric()
  {
    if !b.state.position.hasMilitaryUnit then r == Ok(WaitedForEscort) && a == b
    else match BestCityLocation(w, env, b.state)
      case None =>
        r == Ok(ExploredInstead)
        && Explored(w, civ, env.nav, env.nav.distanceToTiles(b.state.position, b.state.movement), b, a)
      case Some(site) => (r, a) == SettleTurn(env, site, b)
  }

  /** A city is founded only more than 3 tiles from every existing city. */
  lemma FoundedFarFromCities(w: World, civ: Civ, env: Env, b: Snapshot, r: Result<SettlerStep, Fault>, a: Snapshot)
    requires w.Metric() && Settled(w, civ, env, b, r, a) && r == Ok(FoundedCity)
    ensures b.state.position.hasMilitaryUnit && BestCityLocation(w, env, b.state) == Some(a.state.position)
    ensures forall c :: c in w.AllCities() ==> w.distance(c.position, a.state.position.position) > 3
  {
    var site := BestCityLocation(w, env, b.state).value;
    FarFromCities(w, env.nav, b.state, site);
  }

  /** `automateSettlerActions`. */
  method AutomateSettlerActions(unit: MapUnit, w: World, civ: Civ, env: Env) returns (r: Result<SettlerStep, Fault>)
    requires unit.Valid() && env.Valid() && w.Metric()
    modifies unit
    ensures unit.Valid()
    ensures NoStrikeAdded(old(unit.effects), unit.effects)
    ensures Settled(w, civ, env, old(unit.Snap()), r, unit.Snap())
    ensures unit.destroyed == old(unit.destroyed)
  {
    if !unit.position.hasMilitaryUnit {
      return Ok(WaitedForEscort);
    }
    var best := BestCityLocation(w, env, unit.State());
    if best.None? {
      DistancesAffordable(env, unit.position, unit.currentMovement);
      Explore(unit, w, civ, env, env.nav.distanceToTiles(unit.position, unit.currentMovement));
      return Ok(ExploredInstead);
    }
    NoCityWithinDistance(w, env, unit.State());
    assert forall t :: t in w.TilesInDistance(best.value, 3) ==> !t.IsCityCenter();
    r := SettleAt(unit, env, best.value);
  }
}
