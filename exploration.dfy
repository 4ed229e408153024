/** The exploration planner: loot a ruin in reach, head for unexplored
    ground, or wander. */
module Exploration {
  import opened Wrappers
  import opened Select
  import opened Game
  import opened Units

  /** The first tile of the distance map with ancient ruins that the unit may enter. */
  function RuinTile(nav: Navigator, from: Tile, dist: seq<Reach>): (r: Option<Reach>)
    ensures r.Some? ==> r.value in dist && nav.CanMoveTo(from, r.value.tile) && r.value.tile != from
                        && r.value.tile.improvement == Some("Ancient ruins")
    ensures r.None? <==> forall e :: e in dist ==>
              !(nav.CanMoveTo(from, e.tile) && e.tile.improvement == Some("Ancient ruins"))
  {
    FirstWhere(dist, (e: Reach) => nav.CanMoveTo(from, e.tile) && e.tile.improvement == Some("Ancient ruins"))
  }

  /** `tryGoToRuin`: moves onto the ruin if there is one in reach. */
  method TryGoToRuin(unit: MapUnit, nav: Navigator, dist: seq<Reach>) returns (went: bool)
    requires unit.Valid() && Affordable(dist, unit.currentMovement)
    modifies unit
    ensures unit.Valid()
    ensures NoStrikeAdded(old(unit.effects), unit.effects)
    ensures var ruin := RuinTile(nav, old(unit.position), dist);
            && went == ruin.Some?
            && unit.Snap() == if went then old(unit.Snap()).MoveTo(ruin.value) else old(unit.Snap())
    ensures unit.destroyed == old(unit.destroyed)
  {
    var tileWithRuin := RuinTile(nav, unit.position, dist);
    if tileWithRuin.None? {
      return false;
    }
    unit.MoveToTile(tileWithRuin.value);
    return true;
  }

  /** A tile worth exploring from `from`: enterable, not yet explored, reachable. */
  predicate WantsExploring(civ: Civ, nav: Navigator, from: Tile, t: Tile) {
    nav.CanMoveTo(from, t) && t.position !in civ.exploredTiles && nav.canReach(from, t)
  }

  /** The first tile within 5, innermost ring first, worth exploring. */
  function FirstUnexplored(w: World, civ: Civ, nav: Navigator, from: Tile): (r: Option<Tile>)
    ensures r.None? <==> forall t :: t in w.TilesInDistance(from, 5) ==> !WantsExploring(civ, nav, from, t)
    ensures r.Some? ==> && r.value in w.tiles && w.distance(from.position, r.value.position) <= 5
                        && WantsExploring(civ, nav, from, r.value)
  {
    var r := FirstWhere(w.TilesInDistance(from, 5), (t: Tile) => WantsExploring(civ, nav, from, t));
    if r.Some? then InDistance(w, from, 5, r.value); r else r
  }

  /** The tiles of the distance map the unit may enter and can reach. */
  function ReachableTiles(nav: Navigator, from: Tile, dist: seq<Reach>): (r: seq<Reach>)
    ensures forall e :: e in r <==> e in dist && nav.CanMoveTo(from, e.tile) && nav.canReach(from, e.tile)
  {
    Filter(dist, (e: Reach) => nav.CanMoveTo(from, e.tile) && nav.canReach(from, e.tile))
  }

  /** Those of them that take all the movement the unit has. */
  function MaxWalkingDistance(reachable: seq<Reach>, movement: real): (r: seq<Reach>)
    ensures forall e :: e in r <==> e in reachable && e.cost == movement
  {
    Filter(reachable, (e: Reach) => e.cost == movement)
  }

  /** What the second half of `explore` may leave, starting from `b` with
      the distance map `dist`: the unit heads for the first unexplored tile
      within 5; failing that, it moves to some reachable tile that takes all
      its movement; failing that, to some reachable tile; failing that, it
      stays. The tile picked at random is any of the candidates. */
  predicate ExploredFrom(w: World, civ: Civ, nav: Navigator, dist: seq<Reach>, b: Snapshot, a: Snapshot) {
    var target := FirstUnexplored(w, civ, nav, b.state.position);
    var reachable := ReachableTiles(nav, b.state.position, dist);
    var maxWalking := MaxWalkingDistance(reachable, b.state.movement);
    if target.Some? then a == b.HeadTowards(nav, target.value)
    else if maxWalking != [] then exists e :: e in maxWalking && a == b.MoveTo(e)
    else if reachable != [] then exists e :: e in reachable && a == b.MoveTo(e)
    else a == b
  }

  /** The second half of `explore`. */
  method ExploreFrom(unit: MapUnit, w: World, civ: Civ, env: Env, distanceToTiles: seq<Reach>)
    requires unit.Valid() && env.Valid() && Affordable(distanceToTiles, unit.currentMovement)
    modifies unit
    ensures unit.Valid()
    ensures NoStrikeAdded(old(unit.effects), unit.effects)
    ensures ExploredFrom(w, civ, env.nav, distanceToTiles, old(unit.Snap()), unit.Snap())
    ensures unit.destroyed == old(unit.destroyed)
  {
    var from := unit.position;
    var nearby := w.TilesInDistance(from, 5);
    for i := 0 to |nearby|
      invariant unit.Snap() == old(unit.Snap())
      invariant forall j :: 0 <= j < i ==> !WantsExploring(civ, env.nav, from, nearby[j])
    {
      var tile := nearby[i];
      if env.nav.CanMoveTo(from, tile) && tile.position !in civ.exploredTiles && env.nav.canReach(from, tile) {
        assert FirstUnexplored(w, civ, env.nav, from) == Some(tile) by {
          FirstWhereAt(nearby, (t: Tile) => WantsExploring(civ, env.nav, from, t), i);
        }
        unit.HeadTowards(env.nav, tile);
        return;
      }
    }
    assert FirstUnexplored(w, civ, env.nav, from).None?;
    var reachableTiles := ReachableTiles(env.nav, from, distanceToTiles);
    var reachableTilesMaxWalkingDistance := MaxWalkingDistance(reachableTiles, unit.currentMovement);
    if reachableTilesMaxWalkingDistance != [] {
      assert reachableTilesMaxWalkingDistance[0] in reachableTilesMaxWalkingDistance;
      var e :| e in reachableTilesMaxWalkingDistance;   // getRandom()
      unit.MoveToTile(e);
    } else if reachableTiles != [] {
      assert reachableTiles[0] in reachableTiles;
      var e :| e in reachableTiles;                     // getRandom()
      unit.MoveToTile(e);
    }
  }

  /** When nothing within 5 is worth exploring and some reachable tile takes
      all the movement, `explore` walks onto such a tile and has no movement
      left. */
  lemma MaxWalkingUsesAllMovement(w: World, civ: Civ, nav: Navigator, dist: seq<Reach>, b: Snapshot, a: Snapshot)
    requires ExploredFrom(w, civ, nav, dist, b, a)
    requires FirstUnexplored(w, civ, nav, b.state.position).None?
    requires MaxWalkingDistance(ReachableTiles(nav, b.state.position, dist), b.state.movement) != []
    ensures a.state.movement == 0.0
    ensures exists e :: && e in dist && e.cost == b.state.movement
                        && nav.CanMoveTo(b.state.position, e.tile) && nav.canReach(b.state.position, e.tile)
                        && a.state.position == e.tile && a.effects == b.effects + [Moved(e.tile)]
  {
    var e :| e in MaxWalkingDistance(ReachableTiles(nav, b.state.position, dist), b.state.movement)
             && a == b.MoveTo(e);
    assert e in ReachableTiles(nav, b.state.position, dist);
  }

  /** `firstOrNull` returns the element at `i` when none before it qualifies. */
  lemma {:induction false} FirstWhereAt<T(!new)>(s: seq<T>, p: T -> bool, i: nat)
    requires i < |s| && p(s[i]) && forall j :: 0 <= j < i ==> !p(s[j])
    ensures FirstWhere(s, p) == Some(s[i])
  {
    if i > 0 {
      FirstWhereAt(s[1..], p, i - 1);
    }
  }

  /** What `explore` may leave, starting from `b` with the distance map
      `dist`: the unit goes to a ruin in reach first; if that took all its
      movement it stops there, and otherwise it explores from the ruin with
      the distance map computed afresh. Without a ruin it explores from
      where it stands with `dist`. */
  predicate Explored(w: World, civ: Civ, nav: Navigator, dist: seq<Reach>, b: Snapshot, a: Snapshot) {
    match RuinTile(nav, b.state.position, dist)
    case None => ExploredFrom(w, civ, nav, dist, b, a)
    case Some(ruin) =>
      var m := b.MoveTo(ruin);
      if m.state.movement == 0.0 then a == m
      else ExploredFrom(w, civ, nav, nav.distanceToTiles(m.state.position, m.state.movement), m, a)
  }

  /** `explore`. */
  method Explore(unit: MapUnit, w: World, civ: Civ, env: Env, dist: seq<Reach>)
    requires unit.Valid() && env.Valid() && Affordable(dist, unit.currentMovement)
    modifies unit
    ensures unit.Valid()
    ensures NoStrikeAdded(old(unit.effects), unit.effects)
    ensures Explored(w, civ, env.nav, dist, old(unit.Snap()), unit.Snap())
    ensures unit.destroyed == old(unit.destroyed)
  {
    var distanceToTiles := dist;
    var wentToRuin := TryGoToRuin(unit, env.nav, dist);
    if wentToRuin {
      if unit.currentMovement == 0.0 {
        return;
      }
      distanceToTiles := env.nav.distanceToTiles(unit.position, unit.currentMovement);
      DistancesAffordable(env, unit.position, unit.currentMovement);
    }
    ghost var before := unit.effects;
    ExploreFrom(unit, w, civ, env, distanceToTiles);
    NoStrikeAddedTrans(old(unit.effects), before, unit.effects);
  }

  /** Exploring never attacks and leaves health, kind and action as they were. */
  lemma {:induction false} ExploredNeverStrikes(w: World, civ: Civ, nav: Navigator, dist: seq<Reach>,
                                                b: Snapshot, a: Snapshot)
    requires Explored(w, civ, nav, dist, b, a)
    ensures NoStrikeAdded(b.effects, a.effects)
    ensures a.state.health == b.state.health && a.state.action == b.state.action
    ensures a.state.base == b.state.base && a.state.civ == b.state.civ
  {
    var ruin := RuinTile(nav, b.state.position, dist);
    var m := if ruin.Some? then b.MoveTo(ruin.value) else b;
    assert NoStrikeAdded(b.effects, m.effects) by {
      if ruin.Some? { assert m.effects[..|b.effects|] == b.effects; }
    }
    if ruin.None? || m.state.movement != 0.0 {
      var d := if ruin.Some? then nav.distanceToTiles(m.state.position, m.state.movement) else dist;
      assert ExploredFrom(w, civ, nav, d, m, a);
      ExploredFromNeverStrikes(w, civ, nav, d, m, a);
      NoStrikeAddedTrans(b.effects, m.effects, a.effects);
    }
  }

  lemma ExploredFromNeverStrikes(w: World, civ: Civ, nav: Navigator, dist: seq<Reach>, b: Snapshot, a: Snapshot)
    requires ExploredFrom(w, civ, nav, dist, b, a)
    ensures NoStrikeAdded(b.effects, a.effects)
    ensures a.state.health == b.state.health && a.state.action == b.state.action
    ensures a.state.base == b.state.base && a.state.civ == b.state.civ
  {
    if a != b {
      assert a.effects[..|b.effects|] == b.effects;
    }
  }

  /** The tiles at distance `d` worth exploring. */
  function UnexploredAtDistance(w: World, civ: Civ, nav: Navigator, from: Tile, d: nat): (r: seq<Tile>)
    ensures forall t :: t in r <==> t in w.Ring(from, d) && WantsExploring(civ, nav, from, t)
  {
    Filter(w.Ring(from, d), (t: Tile) => WantsExploring(civ, nav, from, t))
  }

  /** What the ring search of `automatedExplore` may leave: the unit heads
      for some tile worth exploring in the nearest of the rings 1 to 10 that
      has one, or stays when none has. */
  predicate ExploredRings(w: World, civ: Civ, nav: Navigator, b: Snapshot, a: Snapshot) {
    var from := b.state.position;
    if forall d :: 1 <= d <= 10 ==> UnexploredAtDistance(w, civ, nav, from, d) == [] then a == b
    else exists d: nat, t ::
           && 1 <= d <= 10 && t in UnexploredAtDistance(w, civ, nav, from, d)
           && (forall k :: 1 <= k < d ==> UnexploredAtDistance(w, civ, nav, from, k) == [])
           && a == b.HeadTowards(nav, t)
  }

  /** The ring search of `automatedExplore`, after the ruin. */
  method ExploreRings(unit: MapUnit, w: World, civ: Civ, env: Env)
    requires unit.Valid() && env.Valid()
    modifies unit
    ensures unit.Valid()
    ensures NoStrikeAdded(old(unit.effects), unit.effects)
    ensures ExploredRings(w, civ, env.nav, old(unit.Snap()), unit.Snap())
    ensures unit.destroyed == old(unit.destroyed)
  {
    var from := unit.position;
    for i := 1 to 11
      invariant unit.Snap() == old(unit.Snap())
      invariant forall k :: 1 <= k < i ==> UnexploredAtDistance(w, civ, env.nav, from, k) == []
    {
      var unexploredTilesAtDistance := UnexploredAtDistance(w, civ, env.nav, from, i);
      if unexploredTilesAtDistance != [] {
        assert unexploredTilesAtDistance[0] in unexploredTilesAtDistance;
        var t :| t in unexploredTilesAtDistance;        // getRandom()
        unit.HeadTowards(env.nav, t);
        return;
      }
    }
  }

  /** What `automatedExplore` may leave: a ruin in reach first, stopping
      there if it took all the movement; otherwise the ring search from where
      the unit then stands. */
  predicate AutoExplored(w: World, civ: Civ, nav: Navigator, b: Snapshot, a: Snapshot) {
    match RuinTile(nav, b.state.position, nav.distanceToTiles(b.state.position, b.state.movement))
    case None => ExploredRings(w, civ, nav, b, a)
    case Some(ruin) =>
      var m := b.MoveTo(ruin);
      if m.state.movement == 0.0 then a == m else ExploredRings(w, civ, nav, m, a)
  }

  /** `automatedExplore`. */
  method AutomatedExplore(unit: MapUnit, w: World, civ: Civ, env: Env)
    requires unit.Valid() && env.Valid()
    modifies unit
    ensures unit.Valid()
    ensures NoStrikeAdded(old(unit.effects), unit.effects)
    ensures AutoExplored(w, civ, env.nav, old(unit.Snap()), unit.Snap())
    ensures unit.destroyed == old(unit.destroyed)
  {
    DistancesAffordable(env, unit.position, unit.currentMovement);
    var wentToRuin := TryGoToRuin(unit, env.nav, env.nav.distanceToTiles(unit.position, unit.currentMovement));
    if wentToRuin && unit.currentMovement == 0.0 {
      return;
    }
    ghost var before := unit.effects;
    ExploreRings(unit, w, civ, env);
    NoStrikeAddedTrans(old(unit.effects), before, unit.effects);
  }
}
