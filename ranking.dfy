/** Tile scores: how good a tile is to heal on, and how good it is as the
    centre of a new city. */
module Ranking {
  import opened Game

  /** `rankTileForHealing`: 3 on a city centre, 2 on a tile owned by a
      civilization the unit is not at war with, 1 on an unowned tile, 0 on
      hostile ground. */
  function RankTileForHealing(w: World, tile: Tile, civ: CivId): (r: nat)
    ensures r <= 3
    ensures r == 3 <==> tile.IsCityCenter()
    ensures r >= 2 <==> tile.IsCityCenter() || (tile.owner.Some? && !w.AtWar(civ, tile.owner.value))
    ensures r == 0 <==> !tile.IsCityCenter() && tile.owner.Some? && w.AtWar(civ, tile.owner.value)
  {
    if tile.IsCityCenter() then 3
    else if tile.owner.Some? && !w.AtWar(civ, tile.owner.value) then 2
    else if tile.owner.None? then 1
    else 0
  }

  ghost predicate Descending(s: seq<real>) {
    forall i, j :: 0 <= i < j < |s| ==> s[j] <= s[i]
  }

  function Insert(x: real, s: seq<real>): (r: seq<real>)
    requires Descending(s)
    ensures Descending(r) && multiset(r) == multiset(s) + multiset{x} && |r| == |s| + 1
  {
    if s == [] || s[0] <= x then [x] + s
    else
      var rest := Insert(x, s[1..]);
      InsertBelowHead(x, s, rest);
      [s[0]] + rest
  }

  /** Putting the head back in front of the insertion into the tail. */
  lemma InsertBelowHead(x: real, s: seq<real>, rest: seq<real>)
    requires Descending(s) && s != [] && x < s[0]
    requires Descending(rest) && multiset(rest) == multiset(s[1..]) + multiset{x}
    ensures Descending([s[0]] + rest) && multiset([s[0]] + rest) == multiset(s) + multiset{x}
  {
    assert s == [s[0]] + s[1..];
    HeadDominates(s);
    assert forall y :: y in rest ==> y <= s[0] by {
      forall y | y in rest ensures y <= s[0] {
        assert y in multiset(rest);
      }
    }
    ConsDescending(s[0], rest);
  }

  /** The head of a descending list is at least every later element. */
  lemma HeadDominates(s: seq<real>)
    requires Descending(s) && s != []
    ensures forall y :: y in s[1..] ==> y <= s[0]
  {
    forall y | y in s[1..] ensures y <= s[0] {
      var i :| 0 <= i < |s[1..]| && s[1..][i] == y;
      assert s[i + 1] == y;
    }
  }

  /** A head at least every element of a descending tail gives a descending list. */
  lemma ConsDescending(h: real, t: seq<real>)
    requires Descending(t) && forall y :: y in t ==> y <= h
    ensures Descending([h] + t)
  {
    forall i, j | 0 <= i < j < |[h] + t| ensures ([h] + t)[j] <= ([h] + t)[i] {
      if i == 0 {
        assert ([h] + t)[j] == t[j - 1];
        assert t[j - 1] in t;
      }
    }
  }

  /** `sortedByDescending` on the values themselves. */
  function SortDescending(s: seq<real>): (r: seq<real>)
    ensures Descending(r) && multiset(r) == multiset(s) && |r| == |s|
  {
    if s == [] then []
    else
      assert s == [s[0]] + s[1..];
      Insert(s[0], SortDescending(s[1..]))
  }

  /** `sortedByDescending { .. }.take(k)`: the `k` greatest values, greatest first. */
  function Largest(s: seq<real>, k: nat): (r: seq<real>)
    ensures |r| == if k <= |s| then k else |s|
    ensures Descending(r) && multiset(r) <= multiset(s)
  {
    var sorted := SortDescending(s);
    var n := if k <= |s| then k else |s|;
    assert sorted == sorted[..n] + sorted[n..];
    sorted[..n]
  }

  /** No value left out by `Largest` exceeds a value it keeps. */
  lemma LargestDominates(s: seq<real>, k: nat, x: real, y: real)
    requires x in multiset(s) - multiset(Largest(s, k)) && y in Largest(s, k)
    ensures x <= y
  {
    var sorted := SortDescending(s);
    var n := if k <= |s| then k else |s|;
    assert sorted == sorted[..n] + sorted[n..];
    assert multiset(s) - multiset(sorted[..n]) == multiset(sorted[n..]);
    assert x in sorted[n..];
    var j :| n <= j < |sorted| && sorted[j] == x;
    var i :| 0 <= i < n && sorted[i] == y;
  }

  /** The statement of `LargestDominates` for all values at once. */
  lemma Dominance(s: seq<real>, k: nat)
    ensures forall x, y :: x in multiset(s) - multiset(Largest(s, k)) && y in Largest(s, k) ==> x <= y
  {
    forall x, y | x in multiset(s) - multiset(Largest(s, k)) && y in Largest(s, k) ensures x <= y {
      LargestDominates(s, k, x, y);
    }
  }

  function Sum(s: seq<real>): real {
    if s == [] then 0.0 else s[0] + Sum(s[1..])
  }

  /** The values `rankings` gives to `ts`, in order. */
  function Rankings(ts: seq<Tile>, rankings: map<Tile, real>): (r: seq<real>)
    requires forall t :: t in ts ==> t in rankings
    ensures |r| == |ts| && forall i :: 0 <= i < |ts| ==> r[i] == rankings[ts[i]]
  {
    if ts == [] then [] else [rankings[ts[0]]] + Rankings(ts[1..], rankings)
  }

  /** Every tile within two of `site` has a ranking (the `!!` of the source). */
  predicate RankedAround(w: World, site: Tile, rankings: map<Tile, real>) {
    forall t :: t in w.tiles && 1 <= w.distance(site.position, t.position) <= 2 ==> t in rankings
  }

  predicate Coastal(w: World, site: Tile) {
    exists t :: t in w.Neighbors(site) && t.baseTerrain == "Coast"
  }

  /** `rankTileAsCityCenter`: the five best rankings among the neighbours
      together with the two best tiles at distance 2, plus 5 next to the
      coast. The two neighbour sets are disjoint, so their union is their
      concatenation; ties in a sort do not change a sum. */
  function RankTileAsCityCenter(w: World, site: Tile, rankings: map<Tile, real>): real
    requires RankedAround(w, site, rankings)
  {
    var bestFromOuterLayer := Largest(Rankings(w.Ring(site, 2), rankings), 2);
    var top5 := Largest(Rankings(w.Neighbors(site), rankings) + bestFromOuterLayer, 5);
    Sum(top5) + if Coastal(w, site) then 5.0 else 0.0
  }

  /** The city-centre rank is the sum of five values (fewer if there are
      fewer candidates) taken from the neighbours' rankings and the two best
      rankings at distance 2, none of the values left out exceeding a value
      taken, plus exactly 5 when a neighbour is coast. */
  lemma CityCenterRankIsTopFive(w: World, site: Tile, rankings: map<Tile, real>)
    requires RankedAround(w, site, rankings)
    ensures var pool := Rankings(w.Neighbors(site), rankings) + Largest(Rankings(w.Ring(site, 2), rankings), 2);
            var chosen := Largest(pool, 5);
            && |chosen| == (if |pool| < 5 then |pool| else 5)
            && multiset(chosen) <= multiset(pool)
            && (forall x, y :: x in multiset(pool) - multiset(chosen) && y in chosen ==> x <= y)
            && RankTileAsCityCenter(w, site, rankings)
               == Sum(chosen) + (if Coastal(w, site) then 5.0 else 0.0)
  {
    Dominance(Rankings(w.Neighbors(site), rankings) + Largest(Rankings(w.Ring(site, 2), rankings), 2), 5);
  }

  /** The tiles at distance 2 contribute their two best rankings (fewer if
      there are fewer such tiles), none left out exceeding one taken. */
  lemma OuterLayerIsTopTwo(w: World, site: Tile, rankings: map<Tile, real>)
    requires RankedAround(w, site, rankings)
    ensures var outer := Rankings(w.Ring(site, 2), rankings);
            var bestOuter := Largest(outer, 2);
            && |bestOuter| == (if |outer| < 2 then |outer| else 2)
            && multiset(bestOuter) <= multiset(outer)
            && (forall x, y :: x in multiset(outer) - multiset(bestOuter) && y in bestOuter ==> x <= y)
  {
    Dominance(Rankings(w.Ring(site, 2), rankings), 2);
  }
}
