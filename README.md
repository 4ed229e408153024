# Unit automation of UnCiv, modelled in Dafny

This project models the turn policy that UnCiv applies to units the player
does not control. `UnitAutomation.automateUnitMoves` runs once per unit and
turn. It goes through a fixed list of rules, and the first rule that applies
handles the turn:

1. Settlers, workers and work boats follow rules of their own. Great people
   do nothing.
2. Every other unit first takes an ancient ruin in reach. It then upgrades,
   or accompanies an unescorted settler.
3. The rest of the list depends on health:
   - below 50 health the unit only heals;
   - it attacks a nearby enemy it survives, or garrisons a city;
   - below 80 it heals;
   - it advances on an enemy within 5 tiles;
   - below 100 it heals;
   - it heads for the enemy city nearest to one of its own cities;
   - failing all of that, it explores.

`MapUnitCombatant` is the view of a unit that combat uses: its health, its
side, its strengths and the damage it takes.

The model has these parts:

- A world snapshot of value types (`game.dfy`). Tiles carry their
  attributes, and two tiles are the same tile exactly when they are equal.
  Cities are the city-centre tiles, in map order. The hex distance is an
  abstract function. Where a proof needs it, the distance is required to be
  symmetric and to obey the triangle inequality (`World.Metric`).
  As with `isAtWarWith`, no civilization is at war with itself
  (`World.AtWar`).
- The unit itself, a class whose fields the automation changes: position,
  movement left, health, the current action such as "Fortify 0", and whether
  it is destroyed (`map_unit.dfy`). What a unit does to the rest of the world
  is recorded in order in its `effects` field: moving to a tile, heading
  somewhere, executing a named action, attacking a tile, or handing over to
  worker automation.
- The collaborators the automation consults, all outside this core. They
  are function-valued fields of `Navigator` and `Env`: the distance map, may
  enter, can reach, shortest path length, head towards, the unit action
  catalogue, the damage estimate, and the general tile score. `Env.Valid`
  states that none of them costs more movement than the unit has.
- One module per group of rules. Each has pure decision functions and the
  methods that carry them out on the unit:
  - healing (`healing.dfy`);
  - tile scores (`ranking.dfy`);
  - combat (`combat.dfy`);
  - garrisoning (`garrison.dfy`);
  - exploring (`exploration.dfy`);
  - settling (`settling.dfy`);
  - the rule order itself (`unit_automation.dfy`).
- What a rule does to the unit is stated on a `Snapshot`: the unit's state
  and its effects so far. Moving, heading somewhere, executing an action,
  attacking and setting the action are functions on it. Each rule has a
  function or a predicate from the snapshot before to the snapshot after
  (`HealTurn`, `AttackTurn`, `GarrisonTurn`, `Explored`, `SettleTurn`,
  `WorkResourceTurn`, `FollowsMilitaryRule`, `MilitaryTurn`, ...). Each
  method on the unit ensures that its new snapshot is the one that
  function gives, or one that predicate allows.
- An exception the source can throw is modelled as an `Err` result. These
  are a missing "Found city" or "Create Fishing Boats" action, and an upgrade
  target the ruleset does not know.

Points worth knowing about the source:

- `rankTileForHealing` gives 3 to every city centre, hostile ones included
  (`UnitAutomation.kt:106`).
- A settler already standing on its chosen site founds the city even with
  no movement left (`UnitAutomation.kt:381-382`). Only after walking there
  does it need movement left.
- Work boats always explore after trying to work a resource
  (`UnitAutomation.kt:100`). The one exception is that a missing "Create
  Fishing Boats" action throws first.
- `automateUnitMoves` lists the unit actions once, before the ruin move
  (`UnitAutomation.kt:39`). The upgrade rule uses that list even after the
  unit has moved.
- `explore` takes a ruin from the distance map it is given, and only after
  a ruin move does it compute the distances afresh
  (`UnitAutomation.kt:314-321`).

## Model

| member | source | states |
|---|---|---|
| Ranking.RankTileForHealing | core/src/com/unciv/logic/automation/UnitAutomation.kt:103-111 | The rank is at most 3. It is 3 exactly on a city centre. It is at least 2 exactly on a city centre or a tile owned by a civilization the unit is not at war with. It is 0 exactly on a non-city tile owned by a civilization at war with the unit. |
| Units.Navigator.CanMoveTo | core/src/com/unciv/logic/automation/UnitAutomation.kt:157 | May-enter for the unit standing on a tile. It is never that tile itself, which the unit already occupies; this is why the source adds `|| it == unit.getTile()` where the own tile counts. |
| Healing.HealingCandidates | core/src/com/unciv/logic/automation/UnitAutomation.kt:114 | The candidates are exactly the distance-map entries the unit may enter. |
| Healing.BestHealingTile | core/src/com/unciv/logic/automation/UnitAutomation.kt:117-121 | There is no best tile exactly when there are no candidates. Otherwise the chosen tile is a candidate of the highest healing rank, and has the highest defensive bonus among the tiles of that rank. |
| Healing.HealingMove | core/src/com/unciv/logic/automation/UnitAutomation.kt:117-123 | The move goes to the best healing tile exactly when that tile is another than the unit's own and has a strictly higher healing rank. Otherwise the unit does not move. |
| Healing.HealTurn | core/src/com/unciv/logic/automation/UnitAutomation.kt:113-127 | What `healUnit` leaves. The unit moves, if at all, onto a distance-map tile of strictly higher healing rank, and nothing else is recorded. Its action becomes "Fortify 0" exactly when there are candidates, movement is left, it lacks "No defensive terrain bonus" and it was not fortified. Health, kind and side are unchanged. |
| Healing.HealUnit | core/src/com/unciv/logic/automation/UnitAutomation.kt:113-127 | The unit's new state and effects are those of `HealTurn`. No attack happens. |
| Healing.CityCentreAttractsWounded | core/src/com/unciv/logic/automation/UnitAutomation.kt:117-123 | A unit not on a city centre, with a city centre it may enter in reach, moves onto a city centre. |
| Combat.ContainsAttackableEnemy | core/src/com/unciv/logic/automation/UnitAutomation.kt:129-139 | A tile holds an attackable enemy exactly when three things hold. The unit is not an embarked ranged unit. It is not embarked aiming at water. The tile holds a combatant of another civilization at war with the unit's. |
| Combat.TilesWithEnemies | core/src/com/unciv/logic/automation/UnitAutomation.kt:144-145 | Exactly the viewable tiles that hold an attackable enemy. |
| Combat.TilesToAttackFrom | core/src/com/unciv/logic/automation/UnitAutomation.kt:155-157 | Exactly the distance-map entries left with more than 0.1 movement, so 0.1 of slack is not enough. The unit must also be able to enter the tile or already stand on it. |
| Combat.TilesInAttackRange | core/src/com/unciv/logic/automation/UnitAutomation.kt:159-160 | With "Indirect fire", exactly the map tiles within the unit's range. Otherwise the tiles in sight within that range. |
| Combat.PairsFrom | core/src/com/unciv/logic/automation/UnitAutomation.kt:161-162 | The pairs from one tile are exactly its tiles in range that hold enemies. |
| Combat.AttackPairs | core/src/com/unciv/logic/automation/UnitAutomation.kt:158-163 | The loop over the tiles to attack from: for each in turn, the pairs with the enemies in range, appended. |
| Combat.AttackPairsMembership | core/src/com/unciv/logic/automation/UnitAutomation.kt:158-163 | A pair is collected exactly when its first tile is one of the tiles to attack from and its target is in range of that tile and holds an enemy. |
| Combat.AttackableEnemies | core/src/com/unciv/logic/automation/UnitAutomation.kt:143-165 | The attacks from each tile to attack from in turn, onto the tiles in range that hold an enemy. What it contains is stated by `AttackableEnemiesExactly`. |
| Combat.AttackableEnemiesExactly | core/src/com/unciv/logic/automation/UnitAutomation.kt:143-165 | A pair is returned exactly when it meets five conditions. Its first tile comes from the distance map with more than 0.1 movement to spare. The unit may enter that tile or stands on it. The target is in range of it (every tile within range under "Indirect fire", otherwise the tiles in sight). The target is viewable. The target holds an attackable enemy. |
| Combat.AttackPairsStep | core/src/com/unciv/logic/automation/UnitAutomation.kt:158-163 | One more tile to attack from appends exactly the attacks from it. |
| Combat.AttackableEnemiesSound | core/src/com/unciv/logic/automation/UnitAutomation.kt:143-165 | Every attack found starts from a distance-map tile with more than 0.1 movement to spare and targets a viewable tile with an attackable enemy. |
| Combat.GetAttackableEnemies | core/src/com/unciv/logic/automation/UnitAutomation.kt:143-165 | The loop builds exactly `AttackableEnemies`. Every pair has more than 0.1 movement to spare and targets a viewable tile with an attackable enemy. |
| Combat.SafeAttacks | core/src/com/unciv/logic/automation/UnitAutomation.kt:234-239 | Exactly the attacks whose estimated damage to the attacker is below its health. |
| Combat.CityHealth | core/src/com/unciv/logic/automation/UnitAutomation.kt:244-247 | The health of the city on a tile, 0 on a tile without a city. |
| Combat.CombatantHealth | core/src/com/unciv/logic/automation/UnitAutomation.kt:252-253 | The health of the combatant on a tile, 0 on a tile without one. |
| Combat.IsCapturableCity | core/src/com/unciv/logic/automation/UnitAutomation.kt:245 | A city centre at 1 health, which a melee unit takes by moving in. |
| Combat.ChooseTarget | core/src/com/unciv/logic/automation/UnitAutomation.kt:241-254 | A melee unit takes a capturable city (health 1) if there is one, and only a melee unit takes one. Otherwise the choice is a non-city target of least health. Otherwise it is a city of least health among those not at 1, and this happens only when every target is a city. Nothing is chosen exactly when every target is capturable and the unit is not melee, or when there are no targets. |
| Combat.AttackChoice | core/src/com/unciv/logic/automation/UnitAutomation.kt:233-255 | A chosen attack is one of the attackable enemies, and the unit survives it by the damage estimate. Nothing is chosen exactly when every safe attack targets a capturable city and the unit is not melee (or there is no safe attack). |
| Combat.AttackChoiceIsSafe | core/src/com/unciv/logic/automation/UnitAutomation.kt:236-238 | The chosen target is one the unit survives, and it holds an enemy combatant. |
| Combat.SetupAction | core/src/com/unciv/logic/automation/UnitAutomation.kt:259-260 | The first "Set up" action on offer where the unit stands after moving to attack. |
| Combat.MovementAfterSetup | core/src/com/unciv/logic/automation/UnitAutomation.kt:258-262 | The movement after the move to the attacking tile, and after "Set up" when it is offered; the strike happens only when this is above 0. |
| Combat.AttackEffects | core/src/com/unciv/logic/automation/UnitAutomation.kt:258-263 | The move, then "Set up" if offered, then the strike if movement is left. |
| Combat.AttackTurn | core/src/com/unciv/logic/automation/UnitAutomation.kt:256-263 | What carrying out an attack leaves. The unit stands on the tile it attacks from. The effects are the move, "Set up" if offered, and the strike if movement is left after that. When the move is affordable no movement is left. Health, action, kind and side are unchanged. |
| Combat.CarryOutAttack | core/src/com/unciv/logic/automation/UnitAutomation.kt:256-263 | The unit's new state and effects are those of `AttackTurn`, so it ends with no movement. |
| Combat.TryAttackNearbyEnemy | core/src/com/unciv/logic/automation/UnitAutomation.kt:233-267 | The rule applies exactly when `AttackChoice` picks an attack. Without one nothing changes. With one the unit's new state and effects are those of `AttackTurn` for it. |
| Combat.CloseEnemies | core/src/com/unciv/logic/automation/UnitAutomation.kt:169-172 | Exactly the tiles within 5 that hold an attackable enemy the unit can reach. For a ranged unit, capturable cities are left out. |
| Combat.ClosestEnemy | core/src/com/unciv/logic/automation/UnitAutomation.kt:174 | There is none exactly when there are no close enemies. Otherwise it is a close enemy within 5, and none is nearer. |
| Combat.TryAdvanceTowardsCloseEnemy | core/src/com/unciv/logic/automation/UnitAutomation.kt:167-181 | The rule applies exactly when there is a closest enemy. The unit then heads for it and takes the navigator's arrival, and otherwise nothing changes. |
| UnitAutomation.SettlerToAccompany | core/src/com/unciv/logic/automation/UnitAutomation.kt:184-187 | There is none exactly when no settler of the civilization stands without a military unit on a tile this unit may enter and can reach. Otherwise it is such a settler. |
| UnitAutomation.TryAccompanySettler | core/src/com/unciv/logic/automation/UnitAutomation.kt:183-191 | The rule applies exactly when there is such a settler. The unit then heads for its tile and takes the navigator's arrival, and otherwise nothing changes. |
| UnitAutomation.UpgradeCost | core/src/com/unciv/logic/automation/UnitAutomation.kt:197 | Twice the cost difference, plus 10 gold. |
| UnitAutomation.UpgradeFor | core/src/com/unciv/logic/automation/UnitAutomation.kt:193-206 | The upgrade happens exactly when four things hold. There is an upgrade target. It is buildable. An "Upgrade to" action is offered. The gold is strictly more than (target cost - own cost) * 2 + 10. An unknown target is an error, and the action taken is an offered "Upgrade to" action. |
| UnitAutomation.UpgradeNeedsMoreThanCost | core/src/com/unciv/logic/automation/UnitAutomation.kt:199 | Gold equal to the cost gives no upgrade. |
| UnitAutomation.TryUpgradeUnit | core/src/com/unciv/logic/automation/UnitAutomation.kt:193-206 | The unit executes exactly the action `UpgradeFor` picks, taking the movement it leaves, and otherwise nothing changes. An unknown target is an error. |
| UnitAutomation.NearestDistance | core/src/com/unciv/logic/automation/UnitAutomation.kt:222-224 | Not more than the distance to any of the cities. |
| UnitAutomation.NearestDistanceAttained | core/src/com/unciv/logic/automation/UnitAutomation.kt:222-224 | Equal to the distance to one of the cities. |
| UnitAutomation.EnemyCityCandidate | core/src/com/unciv/logic/automation/UnitAutomation.kt:211-222 | A city of a civilization at war with the unit's, explored, reachable, and for a ranged unit not at 1 health. |
| UnitAutomation.EnemyCityTarget | core/src/com/unciv/logic/automation/UnitAutomation.kt:208-227 | There is none exactly when the civilization has no city or no city qualifies. A city qualifies if it is at war with the unit, explored and reachable, and for a ranged unit not at 1 health. Otherwise the target qualifies and is nearest to one of the unit's own cities. |
| UnitAutomation.TryHeadTowardsEnemyCity | core/src/com/unciv/logic/automation/UnitAutomation.kt:208-231 | The rule applies exactly when there is a target. The unit then heads for it and takes the navigator's arrival, and otherwise nothing changes. |
| Garrison.ReachableCitiesWithoutUnits | core/src/com/unciv/logic/automation/UnitAutomation.kt:271-276 | Exactly the unit's own cities without a military unit that it may enter and can reach. |
| Garrison.GarrisonTargets | core/src/com/unciv/logic/automation/UnitAutomation.kt:278-284 | In peace, those cities. In war, those among them that are damaged or within 5 of a city at war with the unit. |
| Garrison.StaysInCity | core/src/com/unciv/logic/automation/UnitAutomation.kt:286-295 | The unit stands on a city centre, which in wartime must need defending. |
| Garrison.NeedsDefendingInWartime | core/src/com/unciv/logic/automation/UnitAutomation.kt:278-284 | A city needs defending when it is damaged or within 5 of a city of a civilization at war with the unit's. |
| Garrison.GarrisonPlanFor | core/src/com/unciv/logic/automation/UnitAutomation.kt:269-305 | Melee units never garrison. A unit on a city centre stays, in war only if that city needs defending. No plan exactly when neither applies and there is no target. A move goes to a target that is nearest by distance in peace, or by path length in war. |
| Garrison.GarrisonTurn | core/src/com/unciv/logic/automation/UnitAutomation.kt:288-302 | A unit told to go to a city heads for it; one that stays or does not garrison is left as it was. |
| Garrison.TryGarrisoningUnit | core/src/com/unciv/logic/automation/UnitAutomation.kt:269-305 | The rule applies exactly when there is a plan. The unit's new state and effects are those of `GarrisonTurn`: nothing changes unless the plan is a move, which heads for the city. |
| Exploration.RuinTile | core/src/com/unciv/logic/automation/UnitAutomation.kt:308 | A ruin tile is in the distance map and enterable. There is none exactly when the distance map has no enterable ruin tile. |
| Exploration.WantsExploring | core/src/com/unciv/logic/automation/UnitAutomation.kt:324-325 | A tile the unit may enter from where it stands, not explored by its civilization, and reachable. |
| Exploration.FirstUnexplored | core/src/com/unciv/logic/automation/UnitAutomation.kt:323-328 | There is none exactly when no tile within 5 is worth exploring (enterable, unexplored, reachable). Otherwise it is a map tile within 5 worth exploring. |
| Exploration.TryGoToRuin | core/src/com/unciv/logic/automation/UnitAutomation.kt:307-312 | The rule applies exactly when there is a ruin. The unit then moves onto it, paying its cost, and otherwise nothing changes. |
| Exploration.ReachableTiles | core/src/com/unciv/logic/automation/UnitAutomation.kt:331-332 | Exactly the entries that may be entered and can be reached. |
| Exploration.MaxWalkingDistance | core/src/com/unciv/logic/automation/UnitAutomation.kt:334 | Exactly those whose cost is all the movement left. |
| Exploration.MaxWalkingUsesAllMovement | core/src/com/unciv/logic/automation/UnitAutomation.kt:331-335 | With nothing within 5 worth exploring and some reachable tile that takes all the movement, the unit walks onto such a tile (enterable, reachable, of cost equal to its movement), records only that move, and has no movement left. |
| Exploration.ExploredFrom | core/src/com/unciv/logic/automation/UnitAutomation.kt:323-336 | What the part of `explore` after the ruin may leave: heading for `FirstUnexplored` if there is one; else a move to some reachable tile that costs all the movement; else a move to some reachable tile; else no change. |
| Exploration.ExploreFrom | core/src/com/unciv/logic/automation/UnitAutomation.kt:323-336 | The unit heads for `FirstUnexplored` if there is one. Failing that, it moves to some reachable tile whose cost is all its movement. Failing that, it moves to some reachable tile. Failing that, nothing changes. |
| Exploration.FirstWhereAt | core/src/com/unciv/logic/automation/UnitAutomation.kt:323-328 | The early return of the loop finds the first qualifying tile. |
| Exploration.Explored | core/src/com/unciv/logic/automation/UnitAutomation.kt:314-337 | What `explore` may leave: with no enterable ruin in the given map, `ExploredFrom` with that map; a ruin that takes all the movement ends there; otherwise `ExploredFrom` from the ruin with the distances computed afresh. |
| Exploration.Explore | core/src/com/unciv/logic/automation/UnitAutomation.kt:314-337 | A ruin in the given distance map comes first. If it took all the movement the turn stops there. Otherwise the unit does what `ExploreFrom` allows with the distances computed afresh, and without a ruin with the given distances. No attack happens. |
| Exploration.ExploredNeverStrikes | core/src/com/unciv/logic/automation/UnitAutomation.kt:314-337 | Exploring never attacks, and health, action, kind and side stay as they were. |
| Exploration.ExploredFromNeverStrikes | core/src/com/unciv/logic/automation/UnitAutomation.kt:323-336 | The same for the part after the ruin. |
| Exploration.UnexploredAtDistance | core/src/com/unciv/logic/automation/UnitAutomation.kt:394-396 | Exactly the tiles at that distance worth exploring. |
| Exploration.ExploredRings | core/src/com/unciv/logic/automation/UnitAutomation.kt:393-401 | A head towards some tile of the nearest ring from 1 to 10 holding a tile worth exploring, or no change when no ring holds one. |
| Exploration.ExploreRings | core/src/com/unciv/logic/automation/UnitAutomation.kt:393-401 | The unit heads for some tile worth exploring in the nearest ring from 1 to 10 that has one. If no ring has one, nothing changes. |
| Exploration.AutoExplored | core/src/com/unciv/logic/automation/UnitAutomation.kt:390-402 | A ruin in fresh reach first, ending there if it took all the movement; then `ExploredRings` from where the unit stands. |
| Exploration.AutomatedExplore | core/src/com/unciv/logic/automation/UnitAutomation.kt:390-402 | A ruin in reach comes first, and the turn stops there if it took all the movement. Otherwise the unit does what `ExploreRings` allows from where it then stands. No attack happens. |
| Ranking.Insert | core/src/com/unciv/logic/automation/UnitAutomation.kt:346 | Inserting into a descending list keeps it descending and adds exactly the element. |
| Ranking.SortDescending | core/src/com/unciv/logic/automation/UnitAutomation.kt:346 | The result is descending and a permutation of the input. |
| Ranking.Largest | core/src/com/unciv/logic/automation/UnitAutomation.kt:346-347 | `take(k)` of the descending sort: min(k, size) values, descending, drawn from the input. |
| Ranking.LargestDominates | core/src/com/unciv/logic/automation/UnitAutomation.kt:342-343 | No value left out exceeds a value taken. |
| Ranking.Dominance | core/src/com/unciv/logic/automation/UnitAutomation.kt:342-343 | The same, for every pair of values. |
| Ranking.Rankings | core/src/com/unciv/logic/automation/UnitAutomation.kt:342-349 | The scores of the tiles, position by position. |
| Ranking.RankTileAsCityCenter | core/src/com/unciv/logic/automation/UnitAutomation.kt:339-352 | The sum of the five best scores among the neighbours and the two best tiles at distance 2, plus 5 next to coast; defined only when every such tile is scored. What it adds up is stated by `CityCenterRankIsTopFive`. |
| Ranking.Coastal | core/src/com/unciv/logic/automation/UnitAutomation.kt:350 | Some neighbour of the site has coast as its base terrain. |
| Ranking.CityCenterRankIsTopFive | core/src/com/unciv/logic/automation/UnitAutomation.kt:339-352 | The city-centre rank is the sum of the five best scores (fewer if fewer exist) among the neighbours and the two best tiles at distance 2, plus 5 when a neighbour is coast. |
| Ranking.OuterLayerIsTopTwo | core/src/com/unciv/logic/automation/UnitAutomation.kt:340-343 | The two best tiles at distance 2 are taken (fewer if fewer exist), and none left out scores higher. |
| Settling.TilesNearCities | core/src/com/unciv/logic/automation/UnitAutomation.kt:357-358 | Exactly the tiles within 3 of a city of any civilization. |
| Settling.NearbyTileRankings | core/src/com/unciv/logic/automation/UnitAutomation.kt:361-362 | Each tile within 7 of the settler gets its score, and no other tile is scored. |
| Settling.PossibleCityLocations | core/src/com/unciv/logic/automation/UnitAutomation.kt:364-365 | Exactly the tiles within 5 that the settler may enter or stands on and that are not near a city. |
| Settling.SiteIsRanked | core/src/com/unciv/logic/automation/UnitAutomation.kt:361-362 | Every tile within 2 of a site within 5 is scored, so the `!!` on the score cannot fail. |
| Settling.SiteRank | core/src/com/unciv/logic/automation/UnitAutomation.kt:369 | The city-centre rank of a site whose surroundings are scored, and 0 otherwise. |
| Settling.BestCityLocation | core/src/com/unciv/logic/automation/UnitAutomation.kt:367-370 | There is none exactly when no possible location is reachable. Otherwise it is a reachable possible location more than 3 from every city. |
| Settling.BestCityLocationIsBest | core/src/com/unciv/logic/automation/UnitAutomation.kt:367-370 | No reachable possible location has a higher city-centre rank. |
| Settling.FarFromCities | core/src/com/unciv/logic/automation/UnitAutomation.kt:364-365 | A possible location is more than 3 from every city. |
| Settling.NoCityWithinDistance | core/src/com/unciv/logic/automation/UnitAutomation.kt:378-379 | No tile within 3 of the chosen site is a city centre, so the exception is never thrown. |
| Settling.FoundCityAction | core/src/com/unciv/logic/automation/UnitAutomation.kt:382 | The first "Found city" action on offer in the settler's state. |
| Settling.FoundCityTurn | core/src/com/unciv/logic/automation/UnitAutomation.kt:381-386 | Runs the first "Found city" action on offer, exactly when there is one: the result is `FoundedCity`, the movement is what the action leaves, and "Found city" is recorded. When none is offered, the error is `NoSuchAction("Found city")` and the unit is left as it was. |
| Settling.FoundCity | core/src/com/unciv/logic/automation/UnitAutomation.kt:382 | The unit executes the first "Found city" action, taking the movement it leaves. If none is offered it is an error and nothing changes. |
| Settling.SettleTurn | core/src/com/unciv/logic/automation/UnitAutomation.kt:381-387 | The result is founding, heading to the site, or the missing-action error. Heading leaves the unit off the site, or on it with no movement. Otherwise the unit is on the site, and the effects are the walk there (if it was elsewhere) and "Found city" unless that failed. Health and action are unchanged. |
| Settling.SettleAt | core/src/com/unciv/logic/automation/UnitAutomation.kt:381-387 | The unit's new state, effects and result are those of `SettleTurn`. No attack happens. |
| Settling.AutomateSettlerActions | core/src/com/unciv/logic/automation/UnitAutomation.kt:354-388 | An unescorted settler does nothing at all. Without a reachable site it does what `Explore` allows with fresh distances. Otherwise its new state is that of `SettleTurn` for the best site. No attack happens. |
| Settling.Settled | core/src/com/unciv/logic/automation/UnitAutomation.kt:354-388 | What `automateSettlerActions` may leave: no change without an escort; `Explored` with fresh distances when no site is reachable; `SettleTurn` on the best site otherwise. |
| Settling.FoundedFarFromCities | core/src/com/unciv/logic/automation/UnitAutomation.kt:364-382 | A settler founds a city only when escorted, on the best site, and more than 3 tiles from every existing city. |
| UnitAutomation.TilesInCityRanges | core/src/com/unciv/logic/automation/UnitAutomation.kt:88 | Exactly the tiles within 3 of a city of the unit's civilization. |
| UnitAutomation.HasWorkableSeaResource | core/src/com/unciv/logic/automation/UnitAutomation.kt:83-85 | Water with a resource and no improvement. |
| UnitAutomation.SeaResourcesInCities | core/src/com/unciv/logic/automation/UnitAutomation.kt:88-89 | Exactly those tiles that are water with a resource and no improvement, and that the boat may enter or stands on. |
| UnitAutomation.ReachableResource | core/src/com/unciv/logic/automation/UnitAutomation.kt:90-92 | There is none exactly when no such tile is reachable. Otherwise it is a reachable one that none is nearer than. |
| UnitAutomation.FishingBoatsAction | core/src/com/unciv/logic/automation/UnitAutomation.kt:96-97 | The first "Create Fishing Boats" action on offer in the boat's state. |
| UnitAutomation.WorkResourceTurn | core/src/com/unciv/logic/automation/UnitAutomation.kt:93-97 | The boat stands where the navigator's arrival puts it. Fishing boats are created exactly when it arrives on a workable sea resource with movement left and the action is offered. A missing action then is the only error. The effects are the heading and, if created, "Create Fishing Boats". |
| UnitAutomation.WorkResource | core/src/com/unciv/logic/automation/UnitAutomation.kt:93-97 | The boat's new state, effects and result are those of `WorkResourceTurn`. No attack happens. |
| UnitAutomation.WorkedBoat | core/src/com/unciv/logic/automation/UnitAutomation.kt:87-101 | What `automateWorkBoats` may leave: without a reachable resource, `Explored` with fresh distances; with one, `WorkResourceTurn`, then, unless it failed, `Explored` from where the boat arrived. |
| UnitAutomation.AutomateWorkBoats | core/src/com/unciv/logic/automation/UnitAutomation.kt:87-101 | Without a reachable resource the boat does what `Explore` allows. With one it does `WorkResourceTurn` and then, unless that failed, what `Explore` allows with fresh distances. No attack happens. |
| UnitAutomation.WithinHealthBand | core/src/com/unciv/logic/automation/UnitAutomation.kt:52-79 | The health bands of the rule order: healing below 50, 80 or 100 in its band; attacking and garrisoning from 50; advancing from 80; marching on cities and exploring at 100. |
| UnitAutomation.MilitaryRule | core/src/com/unciv/logic/automation/UnitAutomation.kt:52-79 | Each step is chosen exactly when its own condition holds and no earlier rule applies: heal below 50; attack with a choice; garrison with a plan; heal below 80; advance on a closest enemy; heal below 100; march on an enemy city target; explore otherwise. The step respects the health bands. |
| UnitAutomation.FollowsMilitaryRule | core/src/com/unciv/logic/automation/UnitAutomation.kt:52-79 | What the step `MilitaryRule` picks does: `HealTurn`, `AttackTurn` of the chosen attack, `GarrisonTurn`, heading for the closest enemy or the enemy city target, or `Explored`. |
| UnitAutomation.MilitaryRuleStrikesOnlyInAttack | core/src/com/unciv/logic/automation/UnitAutomation.kt:52-79 | Whatever `FollowsMilitaryRule` allows strikes only in the attack step, and leaves health, kind and side unchanged. |
| UnitAutomation.HeadTowardsNeverStrikes | core/src/com/unciv/logic/automation/UnitAutomation.kt:177 | Heading somewhere records no strike and keeps health, kind and side. |
| UnitAutomation.GarrisonTurnNeverStrikes | core/src/com/unciv/logic/automation/UnitAutomation.kt:269-305 | The same for garrisoning. |
| UnitAutomation.HealTurnNeverStrikes | core/src/com/unciv/logic/automation/UnitAutomation.kt:113-127 | The same for healing. |
| UnitAutomation.WoundedUnitOnlyHeals | core/src/com/unciv/logic/automation/UnitAutomation.kt:52-55 | Below 50 health the unit neither strikes nor heads anywhere. It moves, if at all, onto a distance-map tile of strictly higher healing rank. |
| UnitAutomation.HoldOrAdvance | core/src/com/unciv/logic/automation/UnitAutomation.kt:60-79 | The rules from garrisoning on pick `MilitaryRule`'s step for the state they start from. The unit's new state and effects are what `FollowsMilitaryRule` allows for that step. They never attack. |
| UnitAutomation.AdvanceOrExplore | core/src/com/unciv/logic/automation/UnitAutomation.kt:68-79 | The same for the rules from advancing on. |
| UnitAutomation.FightOrHeal | core/src/com/unciv/logic/automation/UnitAutomation.kt:52-79 | The rules from healing below 50 on pick `MilitaryRule`'s step. The new state and effects are what `FollowsMilitaryRule` allows for it. A strike happens only in the attack step, with the effects of the chosen attack. |
| UnitAutomation.TurnAfterRuin | core/src/com/unciv/logic/automation/UnitAutomation.kt:47-79 | The upgrade comes first, then the settler, then `MilitaryRule`. The new state, effects and result are as `AfterRuin` states: the upgrade action, heading for the settler, or what `FollowsMilitaryRule` allows. The only error is the upgrade's. |
| UnitAutomation.AfterRuin | core/src/com/unciv/logic/automation/UnitAutomation.kt:47-79 | What the rules after the ruin may leave: the upgrade action (an unknown target is the error), else heading for the settler to accompany, else `FollowsMilitaryRule`. |
| UnitAutomation.VisitRuins | core/src/com/unciv/logic/automation/UnitAutomation.kt:40-45 | After a ruin move the unit stands on the ruin, with its movement reduced by the ruin's cost. Without a ruin nothing changes. The turn ends exactly when the ruin took all the movement, and the distances are those from where the unit stands. |
| UnitAutomation.MilitaryTurn | core/src/com/unciv/logic/automation/UnitAutomation.kt:39-79 | What the turn of a military unit may leave: a ruin first, ending the turn if it took all the movement; then `AfterRuin`, with fresh distances after a ruin move and the actions listed before it. |
| UnitAutomation.AutomateMilitaryUnit | core/src/com/unciv/logic/automation/UnitAutomation.kt:39-79 | The new state, effects and result are as `MilitaryTurn` states: a ruin first, ending the turn if it took all the movement, then `AfterRuin` with fresh distances. The turn respects the health bands, and strikes only in the attack step. |
| UnitAutomation.AutomateUnitMoves | core/src/com/unciv/logic/automation/UnitAutomation.kt:20-81 | Settlers do what `Settled` allows, workers hand over to worker automation, work boats do what `WorkedBoat` allows, great persons change nothing, and every other unit does what `MilitaryTurn` allows. Every step respects the health bands. A strike happens only in the attack step. |
| Battle.MapUnitCombatant.TakeDamage | core/src/com/unciv/logic/battle/MapUnitCombatant.kt:13-18 | Health drops by exactly the damage. The unit is destroyed exactly when it already was or it is left with no health. Nothing else changes. |
| Battle.MapUnitCombatant.IsDefeated | core/src/com/unciv/logic/battle/MapUnitCombatant.kt:13 | Defeated exactly when no health is left. |
| Battle.MapUnitCombatant.GetAttackingStrength | core/src/com/unciv/logic/battle/MapUnitCombatant.kt:20-23 | Ranged strength for a ranged unit, melee strength otherwise. |
| Battle.AttackingStrengthIgnoresDefender | core/src/com/unciv/logic/battle/MapUnitCombatant.kt:20-23 | The attacking strength is the same against any defender. |
| Battle.MapUnitCombatant.GetDefendingStrength | core/src/com/unciv/logic/battle/MapUnitCombatant.kt:25-28 | 0 when embarked, otherwise the base strength. |
| Select.FirstWhere | core/src/com/unciv/logic/automation/UnitAutomation.kt:185-187 | `firstOrNull`: none exactly when nothing qualifies, and otherwise a qualifying element. |
| Select.FirstWhereIsFirst | core/src/com/unciv/logic/automation/UnitAutomation.kt:185-187 | No element before it qualifies. |
| Select.MinBy | core/src/com/unciv/logic/automation/UnitAutomation.kt:174 | `minBy`: none exactly for an empty list, and otherwise an element of least key. |
| Select.MinByIsFirst | core/src/com/unciv/logic/automation/UnitAutomation.kt:174 | Ties go to the first minimum. |
| Select.MaxBy | core/src/com/unciv/logic/automation/UnitAutomation.kt:119-121 | `maxBy`: none exactly for an empty list, and otherwise an element of greatest key. |
| Select.MaxByIsFirst | core/src/com/unciv/logic/automation/UnitAutomation.kt:119-121 | Ties go to the first maximum. |
| Game.InDistance | core/src/com/unciv/logic/automation/UnitAutomation.kt:323 | A tile is within `n` of a centre exactly when it is on the map and at distance at most `n`. |

## Left out

- Pathfinding, the distance map, head towards, may enter and can reach are
  inputs (`Navigator`). Moving onto a tile and heading towards one are
  state updates with those results. A unit that heads somewhere and
  arrives takes the arrival's tile and movement.
- The hex geometry (`getTilesInDistance`, `getTilesAtDistance`,
  `arialDistanceTo`, `HexMath`) is an abstract distance on positions over
  the tile list. Within a ring, tiles are in map order, and that order
  decides which unexplored tile `FirstUnexplored` picks first. Lines of
  sight (`getViewableTiles`) are an input.
- `getTilesInRange` of a city is taken as the tiles within 3 of its centre.
  `CityInfo` is not part of this model.
- The damage estimate (`BattleDamage.calculateDamageToAttacker`) is an
  input. `Battle.attack` is recorded as an effect. Its damage to either side
  is not modelled, so health stays unchanged during a turn. `TakeDamage`
  models damage on its own.
- `WorkerAutomation`, the unit action catalogue and the actions themselves
  (upgrade, found city, create fishing boats, set up) are inputs or named
  effects. Only the movement an action leaves is modelled. What an upgrade does to
  the unit is not part of this model.
- `Automation.rankTile` is an input (`Env.rankTile`).
- The bonus of an ancient ruin is not part of this model.
- Within a turn only the unit changes. The tiles and the civilization stay
  the values they had at the start of the turn, even after the unit moves.
  May-enter is asked from where the unit stands, so the unit never counts
  its own tile as enterable, and the distance map is computed afresh where
  the source does.
- AutomateMilitaryUnit: after a ruin move, the tile the unit left still
  counts as holding a military unit, and the ruin does not. A settler on
  the tile left so does not count as unescorted, and a city left so does not
  count as empty for garrisoning. Tiles revealed by the move still count as
  unexplored.
- AutomateUnitMoves: its military branch has the gap of
  `AutomateMilitaryUnit`, and its settler and work-boat branches those of
  `Explore` and `AutomateWorkBoats`.
- Explore: tiles revealed by its ruin move still count as unexplored when
  it looks for unexplored ground.
- AutomateWorkBoats: tiles revealed while heading for the resource still
  count as unexplored in the explore that follows.
- AutomatedExplore: tiles revealed by its ruin move still count as
  unexplored in the ring search.
- Random choices (`getRandom`) are arbitrary choices from the non-empty
  list. The proofs hold for every choice.
- Movement, the tile scores of `rankTile` and the city-centre rank are
  exact `real`s. Kotlin `Float` rounding is not modelled. So the 0.1 slack
  and the `== currentMovement` test are exact comparisons, and the sum of
  the five best scores is exact.
- `HashMap` iteration order is the order of the distance-map sequence, and
  the list of a civilization's cities follows map order. Only which of
  several equally good tiles or cities is picked depends on these orders.
- Combat.CityHealth and Combat.CombatantHealth give 0 where the source's
  `!!` would throw. Neither is reached for a target: city health is read
  only on city centres, and every target holds a combatant
  (`ContainsAttackableEnemy`, `AttackChoiceIsSafe`).
- Settling.SiteRank: a site whose surroundings are not all scored gets 0.
  This never happens for the sites considered (Settling.SiteIsRanked). In
  the source, `!!` would throw there.
- MapUnitCombatant.getUnitType and toString are not modelled. The
  remaining getters (`GetHealth`, `GetCivilization`, `GetTile`, `GetName`)
  are plain reads of the unit, with nothing to state beyond that.
  `IsDefeated` has its own row.
- The tile list of the world holds each map tile once. A list with a
  repeated tile would count it twice among the neighbours of a city-centre
  rank, where the source's `union` would not.
- `PickerScreen.java` is user-interface layout with no decision logic, and
  it is not part of this model.
