// The terrain catalog (src/utils/terrainUtils.ts): a total lookup from biome to
// movement costs, event chances and per-rarity spawn lists.
module TerrainUtils {
  import opened Types

  datatype TerrainCosts = TerrainCosts(stamina: int, health: int)

  /** Spawn lists keyed by the three rarities the catalog knows. */
  datatype SpawnTable = SpawnTable(common: seq<MushroomType>, rare: seq<MushroomType>, legendary: seq<MushroomType>)

  /** Chances are exact rationals: 0.15 stands for the source's 15% chance. */
  datatype TerrainProperties = TerrainProperties(
    costs: TerrainCosts,
    description: string,
    mushroomChance: real,
    dangerChance: real,
    restChance: real,
    mushrooms: SpawnTable)

  /** A rarity that indexes a spawn table (the source's "common" | "rare" | "legendary"). */
  predicate Spawnable(r: Rarity)
  {
    r != Uncommon
  }

  /**
   * The catalog. Mountain, swamp and cave have their own records; forest, meadow,
   * the start tile's empty biome and anything else share the forest record.
   */
  function GetTerrainProperties(b: Biome): (p: TerrainProperties)
    ensures p.costs.stamina > 0 && p.costs.health >= 0
    ensures 0.0 < p.dangerChance && 0.0 < p.restChance
    // the legendary band (roll < 0.05) leaves room for a non-empty "rare" band
    ensures p.mushroomChance > 0.05
    // the three event bands never cover every draw: a no-event band remains
    ensures p.mushroomChance + p.dangerChance + p.restChance < 1.0
    ensures |p.mushrooms.common| > 0 && |p.mushrooms.rare| > 0 && |p.mushrooms.legendary| > 0
  {
    match b
    case Mountain =>
      TerrainProperties(
        TerrainCosts(15, 0),
        "Steep terrain requires more stamina to traverse.",
        0.1, 0.15, 0.05,
        SpawnTable([Bolete, Russula], [Chanterelle], [Morel]))
    case Swamp =>
      TerrainProperties(
        TerrainCosts(12, 5),
        "Hazardous terrain damages health and drains stamina.",
        0.2, 0.15, 0.05,
        SpawnTable([Russula], [Morel], [Chanterelle]))
    case Cave =>
      TerrainProperties(
        TerrainCosts(8, 10),
        "Dark and dangerous, but easier to move through.",
        0.25, 0.2, 0.05,
        SpawnTable([Morel], [Bolete], [Russula]))
    case _ =>
      TerrainProperties(
        TerrainCosts(10, 0),
        "Standard terrain with balanced stamina cost.",
        0.15, 0.1, 0.1,
        SpawnTable([Bolete, Russula], [Morel], [Chanterelle]))
  }

  /** The total event chance of a biome, i.e. the upper end of its third event band. */
  function TotalEventChance(b: Biome): real
  {
    var p := GetTerrainProperties(b);
    p.mushroomChance + p.dangerChance + p.restChance
  }

  /** Meadow and the empty start biome fall through to the forest record. */
  lemma FallThroughToForest(b: Biome)
    requires b == Meadow || b == Empty
    ensures GetTerrainProperties(b) == GetTerrainProperties(Forest)
  {
  }

  /** The movement costs of the four records, stamina then health. */
  lemma CostTable(b: Biome)
    ensures GetTerrainCosts(b) ==
      match b
      case Mountain => TerrainCosts(15, 0)
      case Swamp => TerrainCosts(12, 5)
      case Cave => TerrainCosts(8, 10)
      case _ => TerrainCosts(10, 0)
  {
  }

  /** The total event chances are 30, 40, 50 and 35 percent. */
  lemma EventChanceTable(b: Biome)
    ensures TotalEventChance(b) ==
      match b
      case Mountain => 0.3
      case Swamp => 0.4
      case Cave => 0.5
      case _ => 0.35
  {
  }

  function GetTerrainCosts(b: Biome): (c: TerrainCosts)
    ensures c.stamina > 0 && c.health >= 0
  {
    GetTerrainProperties(b).costs
  }

  function GetTerrainDescription(b: Biome): (d: string)
    ensures |d| > 0
  {
    GetTerrainProperties(b).description
  }

  /** The shared helpers read exactly the catalog's fields. */
  lemma CostsAndDescriptionAgree(b: Biome)
    ensures GetTerrainCosts(b) == GetTerrainProperties(b).costs
    ensures GetTerrainDescription(b) == GetTerrainProperties(b).description
  {
  }

  /** `mushrooms[rarity]` of a record. */
  function SpawnList(p: TerrainProperties, r: Rarity): seq<MushroomType>
    requires Spawnable(r)
  {
    match r
    case Common => p.mushrooms.common
    case Rare => p.mushrooms.rare
    case Legendary => p.mushrooms.legendary
  }

  /** `Math.floor(draw * n)` is a valid index of a list of length n for a draw in [0, 1). */
  lemma ScaledFloorInRange(draw: real, n: nat)
    requires 0.0 <= draw < 1.0 && n > 0
    ensures 0 <= (draw * n as real).Floor < n
  {
    var m := n as real;
    assert draw * m < m by {
      assert (1.0 - draw) * m > 0.0;
    }
    var f := (draw * m).Floor;
    assert f as real <= draw * m < f as real + 1.0;
    assert 0.0 <= draw * m;
  }

  /** The entry at `floor(draw * length)` of a non-empty list (also the danger dialog's pick). */
  function PickEntry<T>(list: seq<T>, draw: real): (t: T)
    requires |list| > 0 && 0.0 <= draw < 1.0
    ensures t in list
  {
    ScaledFloorInRange(draw, |list|);
    list[(draw * |list| as real).Floor]
  }

  /** No spawn list of a spawnable rarity is empty. */
  lemma SpawnListNonEmpty(b: Biome, r: Rarity)
    requires Spawnable(r)
    ensures |SpawnList(GetTerrainProperties(b), r)| > 0
  {
    var p := GetTerrainProperties(b);
    assert |p.mushrooms.common| > 0 && |p.mushrooms.rare| > 0 && |p.mushrooms.legendary| > 0;
  }

  /** Picks the entry at `floor(draw * length)` of the biome's list for the rarity. */
  function GetRandomMushroomForBiome(b: Biome, r: Rarity, draw: real): (t: MushroomType)
    requires Spawnable(r) && 0.0 <= draw < 1.0
    ensures t in SpawnList(GetTerrainProperties(b), r)
  {
    SpawnListNonEmpty(b, r);
    PickEntry(SpawnList(GetTerrainProperties(b), r), draw)
  }
}
