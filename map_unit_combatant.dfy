/** `MapUnitCombatant`: the combat view of a unit. */
module Battle {
  import opened Game
  import opened Units

  class MapUnitCombatant {
    const unit: MapUnit

    constructor (unit: MapUnit)
      ensures this.unit == unit
    {
      this.unit := unit;
    }

    function GetHealth(): int reads unit { unit.health }

    function GetCivilization(): CivId { unit.civ }

    function GetTile(): Tile reads unit { unit.position }

    function GetName(): string { unit.base.name }

    predicate IsRanged() { unit.base.isRanged }

    /** Defeated exactly when no health is left. */
    predicate IsDefeated(): (r: bool)
      reads unit
      ensures r <==> GetHealth() <= 0
    {
      unit.health <= 0
    }

    /** Lowers the health by exactly `damage` and destroys a unit left with none. */
    method TakeDamage(damage: int)
      modifies unit`health, unit`destroyed
      ensures GetHealth() == old(GetHealth()) - damage
      ensures unit.destroyed == (old(unit.destroyed) || IsDefeated())
    {
      unit.health := unit.health - damage;
      if IsDefeated() {
        unit.Destroy();
      }
    }

    /** The ranged strength for a ranged unit, the melee strength otherwise. */
    function GetAttackingStrength(defender: Combatant): (s: int)
      ensures s == if unit.base.isRanged then unit.base.rangedStrength else unit.base.strength
    {
      if IsRanged() then unit.base.rangedStrength else unit.base.strength
    }

    /** An embarked unit has no defence; otherwise its strength defends. */
    function GetDefendingStrength(attacker: Combatant): (s: int)
      reads unit
      ensures unit.State().IsEmbarked() ==> s == 0
      ensures !unit.State().IsEmbarked() ==> s == unit.base.strength
    {
      if unit.State().IsEmbarked() then 0 else unit.base.strength
    }
  }

  /** The attacking strength does not depend on the defender. */
  lemma AttackingStrengthIgnoresDefender(c: MapUnitCombatant, d1: Combatant, d2: Combatant)
    ensures c.GetAttackingStrength(d1) == c.GetAttackingStrength(d2)
  {
  }
}
