/** The combat planner: which tiles hold an enemy this unit may attack,
    from where it can attack them this turn, and which one it attacks. */
module Combat {
  import opened Wrappers
  import opened Select
  import opened Game
  import opened Units

  /** `containsAttackableEnemy`: an embarked ranged unit attacks nothing, an
      embarked unit attacks no water tile, and otherwise a tile is attackable
      exactly when it holds a combatant of another civilization at war with
      the unit's. */
  predicate ContainsAttackableEnemy(w: World, tile: Tile, unit: UnitState): (r: bool)
    ensures r <==> && !(unit.IsEmbarked() && unit.base.isRanged)
                   && !(unit.IsEmbarked() && tile.isWater)
                   && tile.combatant.Some?
                   && tile.combatant.value.civ != unit.civ
                   && w.AtWar(unit.civ, tile.combatant.value.civ)
  {
    if unit.IsEmbarked() && unit.base.isRanged then false
    else if unit.IsEmbarked() && tile.isWater then false   // embarked units attack only land
    else match tile.combatant
      case None => false
      case Some(c) => c.civ != unit.civ && w.AtWar(unit.civ, c.civ)
  }

  /** `AttackableTile`: where to attack from (with the cost of getting
      there) and which tile to attack. */
  datatype AttackableTile = AttackableTile(tileToAttackFrom: Reach, tileToAttack: Tile)

  function TilesWithEnemies(w: World, civ: Civ, unit: UnitState): (r: seq<Tile>)
    ensures forall t :: t in r <==> t in civ.viewableTiles && ContainsAttackableEnemy(w, t, unit)
  {
    Filter(civ.viewableTiles, (t: Tile) => ContainsAttackableEnemy(w, t, unit))
  }

  /** Tiles the unit can reach with MORE than 0.1 movement to spare and may
      stand on (or already stands on). */
  function TilesToAttackFrom(nav: Navigator, unit: UnitState, dist: seq<Reach>): (r: seq<Reach>)
    ensures forall e :: e in r <==> e in dist && unit.movement - e.cost > 0.1
                                     && (nav.CanMoveTo(unit.position, e.tile) || e.tile == unit.position)
  {
    Filter(Filter(dist, (e: Reach) => unit.movement - e.cost > 0.1),
           (e: Reach) => nav.CanMoveTo(unit.position, e.tile) || e.tile == unit.position)
  }

  /** With "Indirect fire" every tile in range, otherwise the ones in sight. */
  function TilesInAttackRange(w: World, unit: UnitState, from: Tile): (r: seq<Tile>)
    ensures unit.HasUnique("Indirect fire") ==>
              forall t :: t in r <==> t in w.tiles && w.distance(from.position, t.position) <= unit.base.range
    ensures !unit.HasUnique("Indirect fire") ==> r == w.lineOfSight(from, unit.base.range)
  {
    if unit.HasUnique("Indirect fire") then
      var inRange := w.TilesInDistance(from, unit.base.range);
      assert forall t :: t in inRange <==> t in w.tiles && w.distance(from.position, t.position) <= unit.base.range by {
        forall t ensures t in inRange <==> t in w.tiles && w.distance(from.position, t.position) <= unit.base.range {
          InDistance(w, from, unit.base.range, t);
        }
      }
      inRange
    else w.lineOfSight(from, unit.base.range)
  }

  /** The attacks from one tile onto the enemy tiles in its range. */
  function PairsFrom(from: Reach, inRange: seq<Tile>, enemies: seq<Tile>): (r: seq<AttackableTile>)
    ensures forall p :: p in r <==> p.tileToAttackFrom == from && p.tileToAttack in inRange && p.tileToAttack in enemies
  {
    if inRange == [] then []
    else (if inRange[0] in enemies then [AttackableTile(from, inRange[0])] else [])
         + PairsFrom(from, inRange[1..], enemies)
  }

  /** The attacks from each of `froms` in turn. */
  function AttackPairs(w: World, unit: UnitState, froms: seq<Reach>, enemies: seq<Tile>): seq<AttackableTile>
  {
    if froms == [] then []
    else AttackPairs(w, unit, froms[..|froms| - 1], enemies)
         + PairsFrom(froms[|froms| - 1], TilesInAttackRange(w, unit, froms[|froms| - 1].tile), enemies)
  }

  lemma {:induction false} AttackPairsMembership(w: World, unit: UnitState, froms: seq<Reach>, enemies: seq<Tile>,
                                                 p: AttackableTile)
    ensures p in AttackPairs(w, unit, froms, enemies)
            <==> p.tileToAttackFrom in froms && p.tileToAttack in TilesInAttackRange(w, unit, p.tileToAttackFrom.tile)
                 && p.tileToAttack in enemies
  {
    if froms != [] {
      var init, last := froms[..|froms| - 1], froms[|froms| - 1];
      AttackPairsMembership(w, unit, init, enemies, p);
      var fromLast := PairsFrom(last, TilesInAttackRange(w, unit, last.tile), enemies);
      assert AttackPairs(w, unit, froms, enemies) == AttackPairs(w, unit, init, enemies) + fromLast;
      assert p in fromLast <==> p.tileToAttackFrom == last && p.tileToAttack in TilesInAttackRange(w, unit, last.tile)
                                && p.tileToAttack in enemies;
      assert froms == init + [last];
      assert p.tileToAttackFrom in froms <==> p.tileToAttackFrom in init || p.tileToAttackFrom == last;
    }
  }

  /** What `getAttackableEnemies` returns. */
  function AttackableEnemies(w: World, civ: Civ, nav: Navigator, unit: UnitState, dist: seq<Reach>): seq<AttackableTile>
  {
    AttackPairs(w, unit, TilesToAttackFrom(nav, unit, dist), TilesWithEnemies(w, civ, unit))
  }

  /** Every attack found starts from a tile reached with more than 0.1
      movement to spare that the unit may enter or already holds, and targets
      a viewable tile in range that holds an attackable enemy; and every such
      attack is found. */
  lemma AttackableEnemiesExactly(w: World, civ: Civ, nav: Navigator, unit: UnitState, dist: seq<Reach>,
                                 p: AttackableTile)
    ensures p in AttackableEnemies(w, civ, nav, unit, dist)
            <==> && p.tileToAttackFrom in dist
                 && unit.movement - p.tileToAttackFrom.cost > 0.1
                 && (nav.CanMoveTo(unit.position, p.tileToAttackFrom.tile) || p.tileToAttackFrom.tile == unit.position)
                 && p.tileToAttack in TilesInAttackRange(w, unit, p.tileToAttackFrom.tile)
                 && p.tileToAttack in civ.viewableTiles
                 && ContainsAttackableEnemy(w, p.tileToAttack, unit)
  {
    AttackPairsMembership(w, unit, TilesToAttackFrom(nav, unit, dist), TilesWithEnemies(w, civ, unit), p);
  }

  /** One more tile to attack from adds the attacks from it at the end. */
  lemma AttackPairsStep(w: World, unit: UnitState, froms: seq<Reach>, enemies: seq<Tile>, i: nat)
    requires i < |froms|
    ensures AttackPairs(w, unit, froms[..i + 1], enemies)
            == AttackPairs(w, unit, froms[..i], enemies)
               + PairsFrom(froms[i], TilesInAttackRange(w, unit, froms[i].tile), enemies)
  {
    assert froms[..i + 1][..i] == froms[..i];
  }

  /** Every attack found has movement to spare and a viewable enemy target. */
  lemma AttackableEnemiesSound(w: World, civ: Civ, nav: Navigator, unit: UnitState, dist: seq<Reach>)
    ensures forall p :: p in AttackableEnemies(w, civ, nav, unit, dist) ==>
              && p.tileToAttackFrom in dist
              && unit.movement - p.tileToAttackFrom.cost > 0.1
              && p.tileToAttack in civ.viewableTiles
              && ContainsAttackableEnemy(w, p.tileToAttack, unit)
  {
    forall p | p in AttackableEnemies(w, civ, nav, unit, dist)
      ensures && p.tileToAttackFrom in dist
              && unit.movement - p.tileToAttackFrom.cost > 0.1
              && p.tileToAttack in civ.viewableTiles
              && ContainsAttackableEnemy(w, p.tileToAttack, unit)
    {
      AttackableEnemiesExactly(w, civ, nav, unit, dist, p);
    }
  }

  /** `getAttackableEnemies`: collects, tile by tile, the attacks possible from
      each tile the unit can attack from. */
  method GetAttackableEnemies(unit: MapUnit, w: World, civ: Civ, nav: Navigator, dist: seq<Reach>)
    returns (attackableTiles: seq<AttackableTile>)
    ensures attackableTiles == AttackableEnemies(w, civ, nav, unit.State(), dist)
    ensures forall p :: p in attackableTiles ==>
              && p.tileToAttackFrom in dist
              && unit.currentMovement - p.tileToAttackFrom.cost > 0.1
              && p.tileToAttack in civ.viewableTiles
              && ContainsAttackableEnemy(w, p.tileToAttack, unit.State())
  {
    var state := unit.State();
    var tilesWithEnemies := TilesWithEnemies(w, civ, state);
    var tilesToAttackFrom := TilesToAttackFrom(nav, state, dist);
    attackableTiles := [];
    for i := 0 to |tilesToAttackFrom|
      invariant attackableTiles == AttackPairs(w, state, tilesToAttackFrom[..i], tilesWithEnemies)
    {
      var reachableTile := tilesToAttackFrom[i];
      var tilesInAttackRange := TilesInAttackRange(w, state, reachableTile.tile);
      attackableTiles := attackableTiles + PairsFrom(reachableTile, tilesInAttackRange, tilesWithEnemies);
      AttackPairsStep(w, state, tilesToAttackFrom, tilesWithEnemies, i);
    }
    assert tilesToAttackFrom[..|tilesToAttackFrom|] == tilesToAttackFrom;
    AttackableEnemiesSound(w, civ, nav, state, dist);
  }

  /** `getCity()!!.health` of a target. It is used only on city centres,
      which have a city; 0 stands for the source's throw elsewhere. */
  function CityHealth(t: Tile): int {
    if t.city.Some? then t.city.value.health else 0
  }

  /** `getMapCombatantOfTile(..)!!.getHealth()`. Every target holds a
      combatant (`ContainsAttackableEnemy`); 0 stands for the source's throw
      elsewhere. */
  function CombatantHealth(t: Tile): int {
    if t.combatant.Some? then t.combatant.value.health else 0
  }

  /** A city centre at 1 health, which a melee unit takes by moving in. */
  predicate IsCapturableCity(t: Tile) { t.IsCityCenter() && CityHealth(t) == 1 }

  /** The attacks the unit survives by the damage estimate. */
  function SafeAttacks(damageToAttacker: Tile -> int, health: int, attacks: seq<AttackableTile>): (r: seq<AttackableTile>)
    ensures forall p :: p in r <==> p in attacks && damageToAttacker(p.tileToAttack) < health
  {
    Filter(attacks, (p: AttackableTile) => damageToAttacker(p.tileToAttack) < health)
  }

  /** The target choice: a melee unit takes a capturable city first; otherwise
      the weakest non-city enemy; otherwise the weakest city that is not at
      the capture threshold. */
  function ChooseTarget(unit: UnitState, attacks: seq<AttackableTile>): (r: Option<AttackableTile>)
    ensures r.Some? ==> r.value in attacks
    ensures (unit.base.isMelee && exists p :: p in attacks && IsCapturableCity(p.tileToAttack)) ==>
              r.Some? && IsCapturableCity(r.value.tileToAttack)
    ensures r.Some? && IsCapturableCity(r.value.tileToAttack) ==> unit.base.isMelee
    ensures r.Some? && !r.value.tileToAttack.IsCityCenter() ==>
              forall p :: p in attacks && !p.tileToAttack.IsCityCenter() ==>
                CombatantHealth(r.value.tileToAttack) <= CombatantHealth(p.tileToAttack)
    ensures r.Some? && r.value.tileToAttack.IsCityCenter() && !IsCapturableCity(r.value.tileToAttack) ==>
              && (forall p :: p in attacks ==> p.tileToAttack.IsCityCenter())
              && forall p :: p in attacks && !IsCapturableCity(p.tileToAttack) ==>
                   CityHealth(r.value.tileToAttack) <= CityHealth(p.tileToAttack)
    ensures r.None? <==>
              (forall p :: p in attacks ==> IsCapturableCity(p.tileToAttack)) && (unit.base.isMelee ==> attacks == [])
  {
    var cityTilesToAttack := Filter(attacks, (p: AttackableTile) => p.tileToAttack.IsCityCenter());
    var nonCityTilesToAttack := Filter(attacks, (p: AttackableTile) => !p.tileToAttack.IsCityCenter());
    var capturableCity := FirstWhere(cityTilesToAttack, (p: AttackableTile) => CityHealth(p.tileToAttack) == 1);
    var cityWithHealthLeft :=
      MinBy(Filter(cityTilesToAttack, (p: AttackableTile) => CityHealth(p.tileToAttack) != 1),
            (p: AttackableTile) => CityHealth(p.tileToAttack) as real);
    if unit.base.isMelee && capturableCity.Some? then capturableCity
    else if nonCityTilesToAttack != [] then
      MinBy(nonCityTilesToAttack, (p: AttackableTile) => CombatantHealth(p.tileToAttack) as real)
    else cityWithHealthLeft
  }

  /** The attack `tryAttackNearbyEnemy` decides on, if any. */
  function AttackChoice(w: World, civ: Civ, env: Env, unit: UnitState, dist: seq<Reach>): (r: Option<AttackableTile>)
    ensures r.Some? ==> r.value in AttackableEnemies(w, civ, env.nav, unit, dist)
                        && env.damageToAttacker(r.value.tileToAttack) < unit.health
    ensures r.None? <==> forall p :: p in SafeAttacks(env.damageToAttacker, unit.health,
                                                      AttackableEnemies(w, civ, env.nav, unit, dist)) ==>
                           !unit.base.isMelee && IsCapturableCity(p.tileToAttack)
  {
    ChooseTarget(unit, SafeAttacks(env.damageToAttacker, unit.health, AttackableEnemies(w, civ, env.nav, unit, dist)))
  }

  /** Nothing the unit would not survive is chosen, and the target holds an
      enemy combatant (so the `!!` on it cannot fail). */
  lemma AttackChoiceIsSafe(w: World, civ: Civ, env: Env, unit: UnitState, dist: seq<Reach>)
    requires AttackChoice(w, civ, env, unit, dist).Some?
    ensures var p := AttackChoice(w, civ, env, unit, dist).value;
            && env.damageToAttacker(p.tileToAttack) < unit.health
            && p.tileToAttack.combatant.Some?
            && p.tileToAttack.combatant.value.civ != unit.civ
            && p in AttackableEnemies(w, civ, env.nav, unit, dist)
  {
    var p := AttackChoice(w, civ, env, unit, dist).value;
    AttackableEnemiesExactly(w, civ, env.nav, unit, dist, p);
  }

  /** The "Set up" action on offer once the unit stands where it attacks from. */
  function SetupAction(env: Env, at: Tile, movement: real): Option<UnitAction> {
    FirstWhere(env.actionsAt(at, movement), (a: UnitAction) => a.name == "Set up")
  }

  /** The movement left once the unit stands on `from` and has set up if it can. */
  function MovementAfterSetup(env: Env, from: Reach, movement: real): real {
    var setup := SetupAction(env, from.tile, movement - from.cost);
    if setup.Some? then setup.value.movementAfter else movement - from.cost
  }

  /** The effects of carrying out a chosen attack: the move, the optional
      "Set up", and the strike itself when movement is left. */
  function AttackEffects(env: Env, attack: AttackableTile, movement: real): seq<Effect> {
    var from := attack.tileToAttackFrom;
    [Moved(from.tile)]
    + (if SetupAction(env, from.tile, movement - from.cost).Some? then [Executed("Set up")] else [])
    + (if MovementAfterSetup(env, from, movement) > 0.0 then [Struck(attack.tileToAttack)] else [])
  }

  /** What carrying out a chosen attack leaves: the unit stands on the tile
      it attacks from, with the effects of `AttackEffects`, and has no
      movement left, whether it struck or the set-up took the last of it. */
  function AttackTurn(env: Env, attack: AttackableTile, b: Snapshot): (r: Snapshot)
    ensures r.state.position == attack.tileToAttackFrom.tile
    ensures r.effects == b.effects + AttackEffects(env, attack, b.state.movement)
    ensures env.Valid() && 0.0 <= attack.tileToAttackFrom.cost <= b.state.movement ==> r.state.movement == 0.0
    ensures r.state.health == b.state.health && r.state.action == b.state.action
    ensures r.state.base == b.state.base && r.state.civ == b.state.civ
  {
    var moved := b.MoveTo(attack.tileToAttackFrom);
    var setup := SetupAction(env, moved.state.position, moved.state.movement);
    var ready := if setup.Some? then moved.Perform(setup.value) else moved;
    if ready.state.movement > 0.0 then ready.StrikeAt(attack.tileToAttack) else ready
  }

  /** The end of `tryAttackNearbyEnemy`: move to the tile to attack from,
      set up if the unit can, and attack if movement is left. */
  method CarryOutAttack(unit: MapUnit, env: Env, attack: AttackableTile)
    requires unit.Valid() && env.Valid()
    requires 0.0 <= attack.tileToAttackFrom.cost <= unit.currentMovement
    modifies unit
    ensures unit.Valid()
    ensures unit.Snap() == AttackTurn(env, attack, old(unit.Snap()))
    ensures unit.destroyed == old(unit.destroyed)
  {
    unit.MoveToTile(attack.tileToAttackFrom);
    var setupAction := SetupAction(env, unit.position, unit.currentMovement);
    if setupAction.Some? {
      unit.Execute(setupAction.value);
    }
    if unit.currentMovement > 0.0 {
      unit.Attack(attack.tileToAttack);
    }
  }

  /** `tryAttackNearbyEnemy`: handled exactly when a target is chosen; if
      none is, nothing changes. */
  method TryAttackNearbyEnemy(unit: MapUnit, w: World, civ: Civ, env: Env, dist: seq<Reach>)
    returns (handled: bool)
    requires unit.Valid() && env.Valid() && Affordable(dist, unit.currentMovement)
    modifies unit
    ensures unit.Valid()
    ensures var choice := AttackChoice(w, civ, env, old(unit.State()), dist);
            && handled == choice.Some?
            && (!handled ==> unit.Snap() == old(unit.Snap()))
            && (handled ==> 0.0 <= choice.value.tileToAttackFrom.cost <= old(unit.currentMovement)
                            && unit.Snap() == AttackTurn(env, choice.value, old(unit.Snap())))
    ensures unit.destroyed == old(unit.destroyed)
  {
    var attackableEnemies := GetAttackableEnemies(unit, w, civ, env.nav, dist);
    var safe := SafeAttacks(env.damageToAttacker, unit.health, attackableEnemies);
    var enemyTileToAttack := ChooseTarget(unit.State(), safe);
    if enemyTileToAttack.None? {
      return false;
    }
    AttackChoiceIsSafe(w, civ, env, unit.State(), dist);
    CarryOutAttack(unit, env, enemyTileToAttack.value);
    return true;
  }

  /** The candidates of `tryAdvanceTowardsCloseEnemy`: reachable attackable
      tiles within 5, without capturable cities for a ranged unit. */
  function CloseEnemies(w: World, nav: Navigator, unit: UnitState): (r: seq<Tile>)
    ensures forall t :: t in r <==> && t in w.TilesInDistance(unit.position, 5)
                                     && ContainsAttackableEnemy(w, t, unit)
                                     && nav.canReach(unit.position, t)
                                     && (unit.base.isRanged ==> !IsCapturableCity(t))
  {
    var closeEnemies := Filter(w.TilesInDistance(unit.position, 5),
                               (t: Tile) => ContainsAttackableEnemy(w, t, unit) && nav.canReach(unit.position, t));
    if unit.base.isRanged then Filter(closeEnemies, (t: Tile) => !IsCapturableCity(t)) else closeEnemies
  }

  /** The closest of them, if any. */
  function ClosestEnemy(w: World, nav: Navigator, unit: UnitState): (r: Option<Tile>)
    ensures r.None? <==> CloseEnemies(w, nav, unit) == []
    ensures r.Some? ==> r.value in CloseEnemies(w, nav, unit)
                        && w.distance(unit.position.position, r.value.position) <= 5
    ensures r.Some? ==> forall t :: t in CloseEnemies(w, nav, unit) ==>
              w.distance(r.value.position, unit.position.position) <= w.distance(t.position, unit.position.position)
  {
    var r := MinBy(CloseEnemies(w, nav, unit), (t: Tile) => w.distance(t.position, unit.position.position) as real);
    if r.Some? then InDistance(w, unit.position, 5, r.value); r else r
  }

  /** `tryAdvanceTowardsCloseEnemy`: heads for the closest enemy, if there is one. */
  method TryAdvanceTowardsCloseEnemy(unit: MapUnit, w: World, env: Env) returns (handled: bool)
    requires unit.Valid() && env.Valid()
    modifies unit
    ensures unit.Valid()
    ensures NoStrikeAdded(old(unit.effects), unit.effects)
    ensures var target := ClosestEnemy(w, env.nav, old(unit.State()));
            && handled == target.Some?
            && unit.Snap() == if handled then old(unit.Snap()).HeadTowards(env.nav, target.value) else old(unit.Snap())
    ensures unit.destroyed == old(unit.destroyed)
  {
    var closestEnemy := ClosestEnemy(w, env.nav, unit.State());
    if closestEnemy.Some? {
      unit.HeadTowards(env.nav, closestEnemy.value);
      return true;
    }
    return false;
  }
}
