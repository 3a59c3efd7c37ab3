// Hex-grid geometry and map generation (src/utils/mapGenerator.ts): bounds, the
// six-neighbour table of an odd-row-offset pointy-top grid, weighted biome choice,
// cumulative-threshold event choice and the rectangular map builder.
module MapGenerator {
  import opened Wrappers
  import opened Types
  import opened TerrainUtils

  // ---------------------------------------------------------------------------
  // Geometry
  // ---------------------------------------------------------------------------

  predicate IsInBounds(x: int, y: int, width: int, height: int)
  {
    x >= 0 && x < width && y >= 0 && y < height
  }

  /** `y % 2 === 1`: the JavaScript remainder of a negative row is never 1. */
  predicate IsOddRow(y: int)
  {
    y >= 0 && y % 2 == 1
  }

  /** W, E, NW, NE, SW, SE of (x, y), in the source's order. */
  function NeighborCandidates(x: int, y: int): (r: seq<Position>)
    ensures |r| == 6
  {
    var lo := if IsOddRow(y) then 0 else -1;
    [Position(x - 1, y), Position(x + 1, y),
     Position(x + lo, y - 1), Position(x + lo + 1, y - 1),
     Position(x + lo, y + 1), Position(x + lo + 1, y + 1)]
  }

  predicate Distinct<T(==)>(s: seq<T>)
  {
    forall i, j :: 0 <= i < j < |s| ==> s[i] != s[j]
  }

  /** `filter(pos => isInBounds(...))`, keeping the order of `ps`. */
  function FilterInBounds(ps: seq<Position>, width: int, height: int): (r: seq<Position>)
    ensures |r| <= |ps|
    ensures forall p :: p in r <==> p in ps && IsInBounds(p.x, p.y, width, height)
    ensures Distinct(ps) ==> Distinct(r)
    ensures (forall p :: p in ps ==> IsInBounds(p.x, p.y, width, height)) ==> r == ps
  {
    if ps == [] then []
    else
      var rest := FilterInBounds(ps[1..], width, height);
      assert forall p :: p in ps <==> p == ps[0] || p in ps[1..];
      if IsInBounds(ps[0].x, ps[0].y, width, height) then
        assert Distinct(ps) ==> ps[0] !in ps[1..];
        [ps[0]] + rest
      else rest
  }

  /** getAdjacentTiles: the in-bounds members of the six-neighbour table. */
  function GetAdjacentTiles(x: int, y: int, width: int, height: int): (r: seq<Position>)
    ensures |r| <= 6
    ensures forall p :: p in r ==> IsInBounds(p.x, p.y, width, height)
    ensures Position(x, y) !in r
    ensures Distinct(r)
  {
    var c := NeighborCandidates(x, y);
    assert Distinct(c);
    FilterInBounds(c, width, height)
  }

  /**
   * An independent statement of hex adjacency: same row and one column apart, or
   * one row apart and in the two columns that the row parity selects.
   */
  predicate HexNeighbors(a: Position, b: Position)
  {
    var lo := if IsOddRow(a.y) then 0 else -1;
    (b.y == a.y && (b.x == a.x - 1 || b.x == a.x + 1))
    || ((b.y == a.y - 1 || b.y == a.y + 1) && (b.x == a.x + lo || b.x == a.x + lo + 1))
  }

  lemma AdjacentIff(x: int, y: int, width: int, height: int, p: Position)
    ensures p in GetAdjacentTiles(x, y, width, height)
      <==> IsInBounds(p.x, p.y, width, height) && HexNeighbors(Position(x, y), p)
  {
    var c := NeighborCandidates(x, y);
    CandidatesAreHexNeighbors(x, y, p);
    assert GetAdjacentTiles(x, y, width, height) == FilterInBounds(c, width, height);
  }

  /** The six-entry table lists exactly the hex neighbours. */
  lemma CandidatesAreHexNeighbors(x: int, y: int, p: Position)
    ensures p in NeighborCandidates(x, y) <==> HexNeighbors(Position(x, y), p)
  {
    var lo := if IsOddRow(y) then 0 else -1;
    var c := NeighborCandidates(x, y);
    assert c == [Position(x - 1, y), Position(x + 1, y),
      Position(x + lo, y - 1), Position(x + lo + 1, y - 1),
      Position(x + lo, y + 1), Position(x + lo + 1, y + 1)];
  }

  /** Two rows next to each other have opposite parity once both are on the map. */
  lemma NextRowParity(y: int, y2: int)
    requires y >= 0 && y2 >= 0 && (y2 == y + 1 || y2 == y - 1)
    ensures IsOddRow(y) <==> !IsOddRow(y2)
  {
  }

  /** Adjacency is symmetric, for both row parities. */
  lemma {:induction false} AdjacencySymmetric(x: int, y: int, width: int, height: int, r: Position)
    requires IsInBounds(x, y, width, height)
    requires r in GetAdjacentTiles(x, y, width, height)
    ensures Position(x, y) in GetAdjacentTiles(r.x, r.y, width, height)
  {
    var a := Position(x, y);
    AdjacentIff(x, y, width, height, r);
    assert HexNeighbors(a, r);
    if r.y != y {
      NextRowParity(y, r.y);
    }
    assert HexNeighbors(r, a);
    AdjacentIff(r.x, r.y, width, height, a);
  }

  /** A tile off the border has all six neighbours. */
  lemma InteriorHasSixNeighbors(x: int, y: int, width: int, height: int)
    requires 1 <= x < width - 1 && 1 <= y < height - 1
    ensures |GetAdjacentTiles(x, y, width, height)| == 6
    ensures GetAdjacentTiles(x, y, width, height) == NeighborCandidates(x, y)
  {
  }

  // ---------------------------------------------------------------------------
  // Weighted biome choice
  // ---------------------------------------------------------------------------

  const Biomes: seq<Biome> := [Forest, Mountain, Swamp, Cave, Meadow]
  /** Forest and meadow are favoured: 30, 15, 15, 15 and 25 percent. */
  const Weights: seq<real> := [0.3, 0.15, 0.15, 0.15, 0.25]

  /** `reduce((a, b) => a + b, 0)`, folding from the left. */
  function Sum(ws: seq<real>): real
  {
    if ws == [] then 0.0 else Sum(ws[..|ws| - 1]) + ws[|ws| - 1]
  }

  /** The first biome from index i on whose cumulative weight reaches r; forest if none does. */
  function FirstCovering(r: real, i: nat): Biome
    requires i <= |Biomes|
    decreases |Biomes| - i
  {
    if i == |Biomes| then Forest
    else if r <= Sum(Weights[..i + 1]) then Biomes[i]
    else FirstCovering(r, i + 1)
  }

  /** The biome chosen for a draw of Math.random(). */
  function BiomeFor(draw: real): Biome
  {
    FirstCovering(draw * Sum(Weights), 0)
  }

  /** getRandomBiome, with its random draw as a parameter. */
  method GetRandomBiome(draw: real) returns (b: Biome)
    ensures b == BiomeFor(draw)
  {
    var totalWeight := Sum(Weights);
    var random := draw * totalWeight;
    var weightSum := 0.0;
    var i := 0;
    while i < |Biomes|
      invariant 0 <= i <= |Biomes|
      invariant weightSum == Sum(Weights[..i])
      invariant FirstCovering(random, i) == BiomeFor(draw)
    {
      assert Weights[..i + 1][..i] == Weights[..i];
      weightSum := weightSum + Weights[i];
      if random <= weightSum {
        return Biomes[i];
      }
      i := i + 1;
    }
    return Forest;
  }

  lemma WeightPrefixSums()
    ensures Sum(Weights[..1]) == 0.3
    ensures Sum(Weights[..2]) == 0.45
    ensures Sum(Weights[..3]) == 0.6
    ensures Sum(Weights[..4]) == 0.75
    ensures Sum(Weights[..5]) == 1.0
    ensures Sum(Weights) == 1.0
  {
    assert Weights[..1][..0] == [];
    assert Weights[..2][..1] == Weights[..1];
    assert Weights[..3][..2] == Weights[..2];
    assert Weights[..4][..3] == Weights[..3];
    assert Weights[..5][..4] == Weights[..4];
    assert Weights[..5] == Weights;
  }

  /**
   * For a draw in [0, 1) the biome is forest up to 0.3, mountain up to 0.45, swamp up
   * to 0.6, cave up to 0.75 and meadow above; never the empty start biome.
   */
  lemma BiomeBands(draw: real)
    requires 0.0 <= draw < 1.0
    ensures BiomeFor(draw) != Empty
    ensures BiomeFor(draw) == Forest <==> draw <= 0.3
    ensures BiomeFor(draw) == Mountain <==> 0.3 < draw <= 0.45
    ensures BiomeFor(draw) == Swamp <==> 0.45 < draw <= 0.6
    ensures BiomeFor(draw) == Cave <==> 0.6 < draw <= 0.75
    ensures BiomeFor(draw) == Meadow <==> 0.75 < draw
  {
    WeightPrefixSums();
    assert draw * Sum(Weights) == draw;
  }

  // ---------------------------------------------------------------------------
  // Event choice
  // ---------------------------------------------------------------------------

  /** The event bands: mushroom, then danger, then rest, against additive thresholds. */
  function EventFor(b: Biome, chance: real): Option<EventType>
  {
    var p := GetTerrainProperties(b);
    if chance < p.mushroomChance then Some(MushroomEvent)
    else if chance < p.mushroomChance + p.dangerChance then Some(DangerEvent)
    else if chance < p.mushroomChance + p.dangerChance + p.restChance then Some(RestEvent)
    else None
  }

  /** generateEvent, with its random draw as a parameter. */
  method GenerateEvent(b: Biome, chance: real) returns (hasEvent: bool, eventType: Option<EventType>)
    ensures hasEvent <==> eventType.Some?
    ensures eventType == EventFor(b, chance)
  {
    var properties := GetTerrainProperties(b);
    var cumulativeChance := 0.0;

    cumulativeChance := cumulativeChance + properties.mushroomChance;
    if chance < cumulativeChance {
      return true, Some(MushroomEvent);
    }

    cumulativeChance := cumulativeChance + properties.dangerChance;
    if chance < cumulativeChance {
      return true, Some(DangerEvent);
    }

    cumulativeChance := cumulativeChance + properties.restChance;
    if chance < cumulativeChance {
      return true, Some(RestEvent);
    }

    return false, None;
  }

  /** A draw at or above the biome's total event chance yields no event, and only such a draw. */
  lemma NoEventBand(b: Biome, chance: real)
    ensures EventFor(b, chance) == None <==> chance >= TotalEventChance(b)
  {
  }

  /** Every biome has a non-empty band for each event and for no event. */
  lemma EveryEventReachable(b: Biome)
    ensures EventFor(b, 0.0) == Some(MushroomEvent)
    ensures EventFor(b, GetTerrainProperties(b).mushroomChance) == Some(DangerEvent)
    ensures EventFor(b, GetTerrainProperties(b).mushroomChance + GetTerrainProperties(b).dangerChance) == Some(RestEvent)
    ensures exists c :: 0.0 <= c < 1.0 && EventFor(b, c) == None
  {
    var c := TotalEventChance(b);
    assert 0.0 <= c < 1.0 && EventFor(b, c) == None;
  }

  // ---------------------------------------------------------------------------
  // Map generation
  // ---------------------------------------------------------------------------

  /** The random draws of one map: a biome draw and an event draw per cell, as [y][x]. */
  datatype MapDraws = MapDraws(biome: seq<seq<real>>, event: seq<seq<real>>)

  predicate Fits(d: MapDraws, width: int, height: int)
  {
    |d.biome| == height && |d.event| == height
    && (forall y :: 0 <= y < height ==> |d.biome[y]| == width)
    && (forall y :: 0 <= y < height ==> |d.event[y]| == width)
  }

  /** The centre of the bottom row. */
  function StartPosition(width: int, height: int): Position
  {
    Position(width / 2, height - 1)
  }

  /** A cell as the first pass of the builder leaves it: undiscovered, biome and event drawn. */
  function RawTile(x: int, y: int, biomeDraw: real, eventDraw: real): (t: Tile)
  {
    var b := BiomeFor(biomeDraw);
    var e := EventFor(b, eventDraw);
    Tile(x, y, b, false, e.Some?, e)
  }

  /** The start tile: empty, discovered and event-free. */
  function StartTile(p: Position): Tile
  {
    Tile(p.x, p.y, Empty, true, false, None)
  }

  /** A cell of the finished map. */
  function GeneratedTile(x: int, y: int, width: int, height: int, biomeDraw: real, eventDraw: real): Tile
  {
    var s := StartPosition(width, height);
    if Position(x, y) == s then StartTile(s)
    else RawTile(x, y, biomeDraw, eventDraw).(discovered := Position(x, y) in GetAdjacentTiles(s.x, s.y, width, height))
  }

  /** One cell of the first pass: a biome draw, then an event draw for that biome. */
  method DrawCell(x: int, y: int, biomeDraw: real, eventDraw: real) returns (t: Tile)
    ensures t == RawTile(x, y, biomeDraw, eventDraw)
  {
    var biome := GetRandomBiome(biomeDraw);
    var hasEvent, eventType := GenerateEvent(biome, eventDraw);
    t := Tile(x, y, biome, false, hasEvent, eventType);
  }

  /** The inner loop of the first pass: fills row `y`, leaving the other rows alone. */
  method FillRow(tiles: array2<Tile>, y: int, draws: MapDraws)
    requires Fits(draws, tiles.Length1, tiles.Length0) && 0 <= y < tiles.Length0
    modifies tiles
    ensures forall j, i :: 0 <= j < tiles.Length0 && 0 <= i < tiles.Length1 ==>
      tiles[j, i] == if j == y then DrawnTile(draws, i, j) else old(tiles[j, i])
  {
    var x := 0;
    while x < tiles.Length1
      invariant 0 <= x <= tiles.Length1
      invariant forall j, i :: 0 <= j < tiles.Length0 && 0 <= i < tiles.Length1 ==>
        tiles[j, i] == if j == y && i < x then DrawnTile(draws, i, j) else old(tiles[j, i])
    {
      var t := DrawCell(x, y, draws.biome[y][x], draws.event[y][x]);
      tiles[y, x] := t;
      x := x + 1;
    }
  }

  /** The first pass of generateMap: every cell drawn, row by row. */
  method FillRawTiles(width: int, height: int, draws: MapDraws) returns (tiles: array2<Tile>)
    requires width >= 1 && height >= 1 && Fits(draws, width, height)
    ensures fresh(tiles) && tiles.Length0 == height && tiles.Length1 == width
    ensures forall y, x :: 0 <= y < height && 0 <= x < width ==>
      tiles[y, x] == DrawnTile(draws, x, y)
  {
    tiles := new Tile[height, width];
    var y := 0;
    while y < height
      invariant 0 <= y <= height
      invariant forall j, i :: 0 <= j < y && 0 <= i < width ==>
        tiles[j, i] == DrawnTile(draws, i, j)
    {
      FillRow(tiles, y, draws);
      y := y + 1;
    }
  }

  /** A cell once the start tile is placed and the first `seen` neighbours are discovered. */
  function PartlyDiscovered(raw: Tile, p: Position, start: Position, seen: seq<Position>): Tile
  {
    if p == start then StartTile(start) else raw.(discovered := p in seen)
  }

  /** The drawn cell at column `i`, row `j`. */
  function DrawnTile(draws: MapDraws, i: int, j: int): Tile
    requires 0 <= j < |draws.biome| && 0 <= i < |draws.biome[j]|
    requires 0 <= j < |draws.event| && 0 <= i < |draws.event[j]|
  {
    RawTile(i, j, draws.biome[j][i], draws.event[j][i])
  }

  /** Overwrites the start cell of a freshly drawn grid. */
  method PlaceStart(tiles: array2<Tile>, start: Position, draws: MapDraws)
    requires Fits(draws, tiles.Length1, tiles.Length0)
    requires IsInBounds(start.x, start.y, tiles.Length1, tiles.Length0)
    requires forall j, i :: 0 <= j < tiles.Length0 && 0 <= i < tiles.Length1 ==>
      tiles[j, i] == DrawnTile(draws, i, j)
    modifies tiles
    ensures forall j, i :: 0 <= j < tiles.Length0 && 0 <= i < tiles.Length1 ==>
      tiles[j, i] == PartlyDiscovered(DrawnTile(draws, i, j), Position(i, j), start, [])
  {
    tiles[start.y, start.x] := StartTile(start);
  }

  /** The `forEach` of generateMap: discovers each listed in-bounds position. */
  method DiscoverAll(tiles: array2<Tile>, adjacent: seq<Position>, start: Position, draws: MapDraws)
    requires Fits(draws, tiles.Length1, tiles.Length0)
    requires start !in adjacent
    requires forall j, i :: 0 <= j < tiles.Length0 && 0 <= i < tiles.Length1 ==>
      tiles[j, i] == PartlyDiscovered(DrawnTile(draws, i, j), Position(i, j), start, [])
    modifies tiles
    ensures forall j, i :: 0 <= j < tiles.Length0 && 0 <= i < tiles.Length1 ==>
      tiles[j, i] == PartlyDiscovered(DrawnTile(draws, i, j), Position(i, j), start, adjacent)
  {
    var k := 0;
    while k < |adjacent|
      invariant 0 <= k <= |adjacent|
      invariant forall j, i :: 0 <= j < tiles.Length0 && 0 <= i < tiles.Length1 ==>
        tiles[j, i] == PartlyDiscovered(DrawnTile(draws, i, j), Position(i, j), start, adjacent[..k])
    {
      var p := adjacent[k];
      assert adjacent[..k + 1] == adjacent[..k] + [p];
      if IsInBounds(p.x, p.y, tiles.Length1, tiles.Length0) {
        tiles[p.y, p.x] := tiles[p.y, p.x].(discovered := true);
      }
      k := k + 1;
    }
    assert adjacent[..k] == adjacent;
  }

  /** A cell after both passes is the finished-map cell. */
  lemma FinishedCell(draws: MapDraws, i: int, j: int, width: int, height: int)
    requires Fits(draws, width, height) && 0 <= j < height && 0 <= i < width
    ensures var s := StartPosition(width, height);
      PartlyDiscovered(DrawnTile(draws, i, j), Position(i, j), s, GetAdjacentTiles(s.x, s.y, width, height))
      == GeneratedTile(i, j, width, height, draws.biome[j][i], draws.event[j][i])
  {
  }

  /**
   * generateMap(width, height). The grid is `height` rows of `width` tiles; the
   * start tile is overwritten and its in-bounds neighbours discovered.
   */
  method GenerateMap(width: int, height: int, draws: MapDraws) returns (tiles: array2<Tile>, start: Position)
    requires width >= 1 && height >= 1 && Fits(draws, width, height)
    ensures fresh(tiles) && tiles.Length0 == height && tiles.Length1 == width
    ensures start == StartPosition(width, height)
    ensures forall y, x :: 0 <= y < height && 0 <= x < width ==>
      tiles[y, x] == GeneratedTile(x, y, width, height, draws.biome[y][x], draws.event[y][x])
  {
    tiles := FillRawTiles(width, height, draws);
    var startX := width / 2;
    var startY := height - 1;
    start := Position(startX, startY);
    PlaceStart(tiles, start, draws);
    var adjacent := GetAdjacentTiles(startX, startY, width, height);
    DiscoverAll(tiles, adjacent, start, draws);
    forall y, x | 0 <= y < height && 0 <= x < width
      ensures tiles[y, x] == GeneratedTile(x, y, width, height, draws.biome[y][x], draws.event[y][x])
    {
      FinishedCell(draws, x, y, width, height);
    }
  }

  /** Every generated tile records its own coordinates and has an event type iff it has an event. */
  lemma GeneratedTileWellFormed(x: int, y: int, width: int, height: int, bd: real, ed: real)
    ensures GeneratedTile(x, y, width, height, bd, ed).x == x
    ensures GeneratedTile(x, y, width, height, bd, ed).y == y
    ensures GeneratedTile(x, y, width, height, bd, ed).hasEvent <==> GeneratedTile(x, y, width, height, bd, ed).eventType.Some?
  {
  }

  /** The start tile is on the map, empty, discovered and event-free. */
  lemma StartTileFacts(width: int, height: int, bd: real, ed: real)
    requires width >= 1 && height >= 1
    ensures var s := StartPosition(width, height);
      IsInBounds(s.x, s.y, width, height)
      && GeneratedTile(s.x, s.y, width, height, bd, ed) == Tile(s.x, s.y, Empty, true, false, None)
  {
  }

  /** The discovered tiles of a fresh map are exactly the start tile and its neighbours. */
  lemma DiscoveredExactlyAroundStart(x: int, y: int, width: int, height: int, bd: real, ed: real)
    ensures var s := StartPosition(width, height);
      var t := GeneratedTile(x, y, width, height, bd, ed);
      t.discovered <==> Position(x, y) == s || Position(x, y) in GetAdjacentTiles(s.x, s.y, width, height)
  {
  }

  /** Off the start tile, a fresh grid's biome never is the empty start biome for a draw in [0, 1). */
  lemma OnlyStartIsEmpty(x: int, y: int, width: int, height: int, bd: real, ed: real)
    requires 0.0 <= bd < 1.0
    requires Position(x, y) != StartPosition(width, height)
    ensures GeneratedTile(x, y, width, height, bd, ed).biome != Empty
  {
    BiomeBands(bd);
  }

  /** Filtering a concatenation filters each part. */
  lemma {:induction false} FilterAppend(a: seq<Position>, b: seq<Position>, width: int, height: int)
    ensures FilterInBounds(a + b, width, height) == FilterInBounds(a, width, height) + FilterInBounds(b, width, height)
  {
    if a == [] {
      assert a + b == b;
    } else {
      assert (a + b)[1..] == a[1..] + b;
      FilterAppend(a[1..], b, width, height);
    }
  }

  /** On the default 10 x 10 map the player starts at (5, 9) with four neighbours. */
  lemma TenByTenStart()
    ensures StartPosition(10, 10) == Position(5, 9)
    ensures GetAdjacentTiles(5, 9, 10, 10) == [Position(4, 9), Position(6, 9), Position(5, 8), Position(6, 8)]
  {
    var above := [Position(4, 9), Position(6, 9), Position(5, 8), Position(6, 8)];
    var below := [Position(5, 10), Position(6, 10)];
    calc {
      GetAdjacentTiles(5, 9, 10, 10);
      FilterInBounds(NeighborCandidates(5, 9), 10, 10);
      { assert NeighborCandidates(5, 9) == above + below; }
      FilterInBounds(above + below, 10, 10);
      { FilterAppend(above, below, 10, 10); }
      FilterInBounds(above, 10, 10) + FilterInBounds(below, 10, 10);
      { AboveInBounds(above); BelowOffGrid(below); }
      above + [];
      above;
    }
  }

  lemma AboveInBounds(above: seq<Position>)
    requires above == [Position(4, 9), Position(6, 9), Position(5, 8), Position(6, 8)]
    ensures FilterInBounds(above, 10, 10) == above
  {
    assert forall p :: p in above ==> IsInBounds(p.x, p.y, 10, 10);
  }

  lemma BelowOffGrid(below: seq<Position>)
    requires below == [Position(5, 10), Position(6, 10)]
    ensures FilterInBounds(below, 10, 10) == []
  {
    assert below[1..] == [Position(6, 10)];
    assert below[1..][1..] == [];
  }
}
