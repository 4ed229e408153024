/** The momentary snapshot of the map and the civilizations that one
    decision reads. Tiles are values that carry their attributes; two tiles
    are the same tile exactly when they are equal. The hex geometry is an
    abstract distance on positions. */
module Game {
  import opened Wrappers
  import opened Select

  type CivId = nat

  datatype Pos = Pos(x: int, y: int)

  /** A city, as seen on its centre tile. */
  datatype CityInfo = CityInfo(civ: CivId, health: int, maxHealth: int)

  /** What combat finds on a tile (`getMapCombatantOfTile`): its side and health. */
  datatype Combatant = Combatant(civ: CivId, health: int)

  datatype Tile = Tile(
    position: Pos,
    baseTerrain: string,          // terrain name, e.g. "Coast"
    isWater: bool,                // the base terrain's type is Water
    resource: Option<string>,
    improvement: Option<string>,  // e.g. "Ancient ruins"
    owner: Option<CivId>,
    city: Option<CityInfo>,       // present exactly on a city centre
    hasMilitaryUnit: bool,
    combatant: Option<Combatant>,
    defensiveBonus: real)
  {
    predicate IsCityCenter() { city.Some? }
  }

  /** A unit of a civilization as other units see it: its name and tile. */
  datatype UnitRecord = UnitRecord(name: string, tile: Tile)

  datatype Civ = Civ(
    id: CivId,
    gold: int,
    exploredTiles: set<Pos>,
    viewableTiles: seq<Tile>,
    units: seq<UnitRecord>,
    buildableUnits: set<string>)

  datatype World = World(
    tiles: seq<Tile>,                       // every tile of the map, in map order
    war: set<(CivId, CivId)>,               // (a, b): a is at war with b
    distance: (Pos, Pos) -> nat,            // hex distance
    lineOfSight: (Tile, nat) -> seq<Tile>)  // tiles visible from a tile within a range
  {
    /** `distance` behaves as a distance: it is symmetric and obeys the
        triangle inequality. */
    ghost predicate Metric() {
      (forall a: Pos, b: Pos :: distance(a, b) == distance(b, a))
      && (forall a: Pos, b: Pos, c: Pos {:trigger distance(a, b), distance(b, c)} ::
            distance(a, c) <= distance(a, b) + distance(b, c))
    }

    /** `isAtWarWith`: never with itself, whatever `war` lists. */
    predicate AtWar(a: CivId, b: CivId) { a != b && (a, b) in war }

    /** `isAtWar()`: the civilization is at war with someone else. */
    predicate IsAtWar(a: CivId) { exists p :: p in war && p.0 == a && p.1 != a }

    /** `getTilesAtDistance(d)`: the tiles exactly `d` from `center`. */
    function Ring(center: Tile, d: nat): (r: seq<Tile>)
      ensures forall t :: t in r <==> t in tiles && distance(center.position, t.position) == d
    {
      Filter(tiles, (t: Tile) => distance(center.position, t.position) == d)
    }

    /** `neighbors`. */
    function Neighbors(center: Tile): seq<Tile> { Ring(center, 1) }

    /** `getTilesInDistance(n)`: the rings 0, 1, ..., n around `center`, inner ring first. */
    function TilesInDistance(center: Tile, n: nat): seq<Tile>
    {
      if n == 0 then Ring(center, 0) else TilesInDistance(center, n - 1) + Ring(center, n)
    }

    /** All city-centre tiles of all civilizations. */
    function AllCities(): (r: seq<Tile>)
      ensures forall t :: t in r <==> t in tiles && t.IsCityCenter()
    {
      Filter(tiles, (t: Tile) => t.IsCityCenter())
    }

    /** `civInfo.cities`, as their centre tiles. */
    function Cities(civ: CivId): (r: seq<Tile>)
      ensures forall t :: t in r <==> t in tiles && t.IsCityCenter() && t.city.value.civ == civ
    {
      Filter(tiles, (t: Tile) => t.IsCityCenter() && t.city.value.civ == civ)
    }
  }

  /** A tile lies within `n` of `center` exactly when it is on the map and
      its distance is at most `n`. */
  lemma {:induction false} InDistance(w: World, center: Tile, n: nat, t: Tile)
    ensures t in w.TilesInDistance(center, n)
            <==> t in w.tiles && w.distance(center.position, t.position) <= n
  {
    if n > 0 {
      InDistance(w, center, n - 1, t);
    }
  }
}
