/** The automated unit and the collaborators the automation calls but does
    not implement: the navigator, the catalogue of unit actions, the combat
    damage estimate and the general tile ranking. */
module Units {
  import opened Wrappers
  import opened Game

  /** The fixed kind of a unit. */
  datatype BaseUnit = BaseUnit(
    name: string,
    cost: int,
    strength: int,
    rangedStrength: int,
    range: nat,
    isRanged: bool,          // unitType.isRanged()
    isMelee: bool,           // unitType.isMelee()
    isLandUnit: bool,
    uniques: set<string>,    // e.g. "Indirect fire", "No defensive terrain bonus"
    upgradesTo: Option<string>)

  /** A tile the unit can reach this turn and the movement it costs (one
      entry of `getDistanceToTiles()`). */
  datatype Reach = Reach(tile: Tile, cost: real)

  /** Where `headTowards` leaves the unit and the movement it has left. */
  datatype Arrival = Arrival(tile: Tile, movementLeft: real)

  /** An entry of the action catalogue: its name and the movement the unit
      has left once it is executed. */
  datatype UnitAction = UnitAction(name: string, movementAfter: real)

  /** What the unit did to the rest of the world, in order. */
  datatype Effect =
    | Moved(to: Tile)              // moveToTile
    | Headed(toward: Tile)         // movementAlgs().headTowards
    | Executed(action: string)     // an action of the catalogue was executed
    | Struck(target: Tile)         // Battle.attack on the combatant of a tile
    | WorkerAutomation             // WorkerAutomation(unit).automateWorkerAction()

  /** The exceptions the automation can raise: a `first { }` that finds no
      action of that name, and a unit type the ruleset does not know (`!!`). */
  datatype Fault = NoSuchAction(name: string) | UnknownUnitType(name: string)

  /** The value of a unit's state at one moment. */
  datatype UnitState = UnitState(
    base: BaseUnit, civ: CivId, health: int, movement: real,
    position: Tile, action: Option<string>)
  {
    predicate HasUnique(u: string) { u in base.uniques }

    /** A land unit standing on water. */
    predicate IsEmbarked() { base.isLandUnit && position.isWater }

    predicate IsFortified() { action.Some? && StartsWith(action.value, "Fortify") }
  }

  /** A unit's state together with the effects it has had so far: what a
      rule of the automation is specified on. */
  datatype Snapshot = Snapshot(state: UnitState, effects: seq<Effect>)
  {
    /** `moveToTile` onto an entry of the distance map, paying its cost. */
    function MoveTo(r: Reach): Snapshot {
      Snapshot(state.(position := r.tile, movement := state.movement - r.cost), effects + [Moved(r.tile)])
    }

    /** `headTowards(target)`: the unit takes the navigator's arrival. */
    function HeadTowards(nav: Navigator, target: Tile): Snapshot {
      var a := nav.headTowards(state.position, state.movement, target);
      Snapshot(state.(position := a.tile, movement := a.movementLeft), effects + [Headed(target)])
    }

    /** Executing an entry of the action catalogue. */
    function Perform(a: UnitAction): Snapshot {
      Snapshot(state.(movement := a.movementAfter), effects + [Executed(a.name)])
    }

    /** `Battle.attack` on the combatant of `target`, which uses up the movement. */
    function StrikeAt(target: Tile): Snapshot {
      Snapshot(state.(movement := 0.0), effects + [Struck(target)])
    }

    function WithAction(a: string): Snapshot {
      Snapshot(state.(action := Some(a)), effects)
    }
  }

  predicate StartsWith(s: string, prefix: string) {
    |prefix| <= |s| && s[..|prefix|] == prefix
  }

  /** The path-finding collaborator. */
  datatype Navigator = Navigator(
    distanceToTiles: (Tile, real) -> seq<Reach>,  // from a tile with a movement budget
    mayEnter: (Tile, Tile) -> bool,              // from, to
    canReach: (Tile, Tile) -> bool,               // from, to
    shortestPathSize: (Tile, Tile) -> nat,        // from, to
    headTowards: (Tile, real, Tile) -> Arrival)   // from, budget, target
  {
    /** `canMoveTo` for the unit standing on `from`. It is never the tile the
        unit stands on, which the unit itself already occupies. */
    predicate CanMoveTo(from: Tile, to: Tile) { to != from && mayEnter(from, to) }
  }

  /** Everything outside the core that a decision consults. */
  datatype Env = Env(
    nav: Navigator,
    actionsAt: (Tile, real) -> seq<UnitAction>,   // UnitActions().getUnitActions for the unit in a state
    damageToAttacker: Tile -> int,                // BattleDamage().calculateDamageToAttacker against a tile's combatant
    rankTile: Tile -> real)                       // Automation().rankTile
  {
    /** No collaborator costs more movement than the unit has or leaves it negative. */
    ghost predicate Valid() {
      (forall p: Tile, m: real, i: int :: 0.0 <= m && 0 <= i < |nav.distanceToTiles(p, m)| ==>
         0.0 <= nav.distanceToTiles(p, m)[i].cost <= m)
      && (forall p: Tile, m: real, t: Tile :: 0.0 <= m ==>
            0.0 <= nav.headTowards(p, m, t).movementLeft <= m)
      && (forall p: Tile, m: real, i: int :: 0.0 <= m && 0 <= i < |actionsAt(p, m)| ==>
            0.0 <= actionsAt(p, m)[i].movementAfter <= m)
    }
  }

  /** Every cost in `dist` is affordable with movement `m`. */
  predicate Affordable(dist: seq<Reach>, m: real) {
    forall i :: 0 <= i < |dist| ==> 0.0 <= dist[i].cost <= m
  }

  lemma DistancesAffordable(env: Env, p: Tile, m: real)
    requires env.Valid() && 0.0 <= m
    ensures Affordable(env.nav.distanceToTiles(p, m), m)
  {
  }

  /** Only effects other than attacks were appended to `before`. */
  predicate NoStrikeAdded(before: seq<Effect>, after: seq<Effect>) {
    |before| <= |after| && after[..|before|] == before
    && forall i :: |before| <= i < |after| ==> !after[i].Struck?
  }

  lemma NoStrikeAddedTrans(a: seq<Effect>, b: seq<Effect>, c: seq<Effect>)
    requires NoStrikeAdded(a, b) && NoStrikeAdded(b, c)
    ensures NoStrikeAdded(a, c)
  {
    assert c[..|a|] == c[..|b|][..|a|];
  }

  class MapUnit {
    const base: BaseUnit
    const civ: CivId
    var health: int
    var currentMovement: real
    var position: Tile
    var action: Option<string>
    var destroyed: bool
    var effects: seq<Effect>

    ghost predicate Valid() reads this { 0.0 <= currentMovement }

    function State(): UnitState reads this {
      UnitState(base, civ, health, currentMovement, position, action)
    }

    function Snap(): Snapshot reads this {
      Snapshot(State(), effects)
    }

    constructor (base: BaseUnit, civ: CivId, health: int, movement: real, position: Tile)
      requires 0.0 <= movement
      ensures Valid()
      ensures State() == UnitState(base, civ, health, movement, position, None)
      ensures !destroyed && effects == []
    {
      this.base := base;
      this.civ := civ;
      this.health := health;
      this.currentMovement := movement;
      this.position := position;
      this.action := None;
      this.destroyed := false;
      this.effects := [];
    }

    /** `moveToTile`: go to a tile of the distance map, paying its cost. */
    method MoveToTile(r: Reach)
      requires Valid() && 0.0 <= r.cost <= currentMovement
      modifies this
      ensures Valid()
      ensures position == r.tile && currentMovement == old(currentMovement) - r.cost
      ensures effects == old(effects) + [Moved(r.tile)]
      ensures health == old(health) && action == old(action) && destroyed == old(destroyed)
      ensures Snap() == old(Snap()).MoveTo(r)
    {
      position := r.tile;
      currentMovement := currentMovement - r.cost;
      effects := effects + [Moved(r.tile)];
    }

    /** `movementAlgs().headTowards(target)`. */
    method HeadTowards(nav: Navigator, target: Tile)
      requires Valid()
      requires 0.0 <= nav.headTowards(position, currentMovement, target).movementLeft <= currentMovement
      modifies this
      ensures Valid()
      ensures Arrival(position, currentMovement) == nav.headTowards(old(position), old(currentMovement), target)
      ensures effects == old(effects) + [Headed(target)]
      ensures health == old(health) && action == old(action) && destroyed == old(destroyed)
      ensures Snap() == old(Snap()).HeadTowards(nav, target)
    {
      var r := nav.headTowards(position, currentMovement, target);
      position := r.tile;
      currentMovement := r.movementLeft;
      effects := effects + [Headed(target)];
    }

    /** `action()` of an entry of the action catalogue. */
    method Execute(a: UnitAction)
      requires Valid() && 0.0 <= a.movementAfter
      modifies this
      ensures Valid()
      ensures currentMovement == a.movementAfter
      ensures effects == old(effects) + [Executed(a.name)]
      ensures health == old(health) && position == old(position)
      ensures action == old(action) && destroyed == old(destroyed)
      ensures Snap() == old(Snap()).Perform(a)
    {
      currentMovement := a.movementAfter;
      effects := effects + [Executed(a.name)];
    }

    /** `Battle.attack`: strikes the combatant of `target`; attacking uses up the turn's movement. */
    method Attack(target: Tile)
      requires Valid()
      modifies this
      ensures Valid()
      ensures currentMovement == 0.0
      ensures effects == old(effects) + [Struck(target)]
      ensures health == old(health) && position == old(position)
      ensures action == old(action) && destroyed == old(destroyed)
      ensures Snap() == old(Snap()).StrikeAt(target)
    {
      currentMovement := 0.0;
      effects := effects + [Struck(target)];
    }

    /** `unit.action = a`. */
    method SetAction(a: string)
      modifies this`action
      ensures action == Some(a)
      ensures Snap() == old(Snap()).WithAction(a)
    {
      action := Some(a);
    }

    /** `destroy()`. */
    method Destroy()
      modifies this`destroyed
      ensures destroyed
    {
      destroyed := true;
    }

    /** Hands the turn to the worker automation, which is not part of this model. */
    method DelegateToWorkerAutomation()
      modifies this`effects
      ensures effects == old(effects) + [WorkerAutomation]
    {
      effects := effects + [WorkerAutomation];
    }
  }
}
