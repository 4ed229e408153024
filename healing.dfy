/** `healUnit`: move a wounded unit to the best healing tile in reach and fortify it. */
module Healing {
  import opened Wrappers
  import opened Select
  import opened Game
  import opened Units
  import opened Ranking

  /** The tiles of the distance map the unit may enter. */
  function HealingCandidates(nav: Navigator, from: Tile, dist: seq<Reach>): (r: seq<Reach>)
    ensures forall e :: e in r <==> e in dist && nav.CanMoveTo(from, e.tile)
  {
    Filter(dist, (e: Reach) => nav.CanMoveTo(from, e.tile))
  }

  /** The tiles grouped by healing rank, the best group taken, and in it the
      tile of greatest defensive bonus: a tile of highest rank, and of highest
      defensive bonus among those. */
  function BestHealingTile(w: World, civ: CivId, cands: seq<Reach>): (r: Option<Reach>)
    ensures r.None? <==> cands == []
    ensures r.Some? ==> r.value in cands
    ensures r.Some? ==> forall e :: e in cands ==>
              && RankTileForHealing(w, e.tile, civ) <= RankTileForHealing(w, r.value.tile, civ)
              && (RankTileForHealing(w, e.tile, civ) == RankTileForHealing(w, r.value.tile, civ)
                  ==> e.tile.defensiveBonus <= r.value.tile.defensiveBonus)
  {
    var byRate := MaxBy(cands, (e: Reach) => RankTileForHealing(w, e.tile, civ) as real);
    if byRate.None? then None
    else
      var bestRate := RankTileForHealing(w, byRate.value.tile, civ);
      var bestTiles := Filter(cands, (e: Reach) => RankTileForHealing(w, e.tile, civ) == bestRate);
      assert byRate.value in bestTiles;
      MaxBy(bestTiles, (e: Reach) => e.tile.defensiveBonus)
  }

  /** Whether healing moves the unit: to the best healing tile, exactly when
      that is another tile of strictly better rank than the unit's own. */
  function HealingMove(w: World, unit: UnitState, nav: Navigator, dist: seq<Reach>): (r: Option<Reach>)
    ensures r.Some? ==> r.value in dist && nav.CanMoveTo(unit.position, r.value.tile) && r.value.tile != unit.position
                        && RankTileForHealing(w, r.value.tile, unit.civ) > RankTileForHealing(w, unit.position, unit.civ)
    ensures r.Some? ==> r == BestHealingTile(w, unit.civ, HealingCandidates(nav, unit.position, dist))
    ensures r.None? ==>
              var best := BestHealingTile(w, unit.civ, HealingCandidates(nav, unit.position, dist));
              || best.None? || best.value.tile == unit.position
              || RankTileForHealing(w, best.value.tile, unit.civ) <= RankTileForHealing(w, unit.position, unit.civ)
  {
    var best := BestHealingTile(w, unit.civ, HealingCandidates(nav, unit.position, dist));
    if best.Some? && best.value.tile != unit.position
       && RankTileForHealing(w, best.value.tile, unit.civ) > RankTileForHealing(w, unit.position, unit.civ)
    then best else None
  }

  /** What `healUnit` leaves: the unit moves only onto a tile of strictly
      better healing rank, paying its cost, and becomes "Fortify 0" exactly
      when it had candidates, still has movement, lacks "No defensive terrain
      bonus" and was not fortified already. It never attacks, and its health
      is unchanged. */
  function HealTurn(w: World, nav: Navigator, dist: seq<Reach>, b: Snapshot): (r: Snapshot)
    ensures r.state.position != b.state.position ==>
              RankTileForHealing(w, r.state.position, b.state.civ) > RankTileForHealing(w, b.state.position, b.state.civ)
    ensures r.effects == b.effects || exists e :: e in dist && r.effects == b.effects + [Moved(e.tile)]
    ensures r.state.action
            == if HealingCandidates(nav, b.state.position, dist) != [] && r.state.movement > 0.0
                  && !b.state.HasUnique("No defensive terrain bonus") && !b.state.IsFortified()
               then Some("Fortify 0") else b.state.action
    ensures r.state.health == b.state.health && r.state.base == b.state.base && r.state.civ == b.state.civ
  {
    if HealingCandidates(nav, b.state.position, dist) == [] then b
    else
      var move := HealingMove(w, b.state, nav, dist);
      var moved := if move.Some? then b.MoveTo(move.value) else b;
      if moved.state.movement > 0.0 && !b.state.HasUnique("No defensive terrain bonus") && !b.state.IsFortified()
      then moved.WithAction("Fortify 0") else moved
  }

  /** `healUnit`. */
  method HealUnit(unit: MapUnit, w: World, nav: Navigator, dist: seq<Reach>)
    requires unit.Valid() && Affordable(dist, unit.currentMovement)
    modifies unit
    ensures unit.Valid()
    ensures NoStrikeAdded(old(unit.effects), unit.effects)
    ensures unit.Snap() == HealTurn(w, nav, dist, old(unit.Snap()))
    ensures unit.destroyed == old(unit.destroyed)
  {
    var state := unit.State();
    var tilesInDistance := HealingCandidates(nav, unit.position, dist);
    if tilesInDistance == [] {
      return;
    }
    var move := HealingMove(w, state, nav, dist);
    if move.Some? {
      unit.MoveToTile(move.value);
    }
    if unit.currentMovement > 0.0 && !state.HasUnique("No defensive terrain bonus") && !state.IsFortified() {
      unit.SetAction("Fortify 0");
    }
  }

  /** An own or friendly city centre in reach is where a wounded unit ends up
      (unless it already stands on one). */
  lemma CityCentreAttractsWounded(w: World, unit: UnitState, nav: Navigator, dist: seq<Reach>, city: Reach)
    requires city in dist && nav.CanMoveTo(unit.position, city.tile) && city.tile.IsCityCenter()
    requires !unit.position.IsCityCenter()
    ensures var move := HealingMove(w, unit, nav, dist);
            move.Some? && move.value.tile.IsCityCenter() && move.value in dist
  {
    var best := BestHealingTile(w, unit.civ, HealingCandidates(nav, unit.position, dist));
    assert city in HealingCandidates(nav, unit.position, dist);
    assert RankTileForHealing(w, best.value.tile, unit.civ) >= 3;
  }
}
