// The specimen generator (src/utils/mushroomUtils.ts): rarity from a threshold roll,
// a type from the biome's spawn list, a value from the rarity, an unidentified record.
module MushroomUtils {
  import opened Wrappers
  import opened Types
  import opened TerrainUtils

  /** A rarity roll below this is legendary. */
  const LegendaryRoll: real := 0.05

  /**
   * The rarity ladder: legendary below 0.05, rare below the biome's mushroom chance,
   * common otherwise. "uncommon" is never produced.
   */
  function RollRarity(roll: real, mushroomChance: real): (r: Rarity)
    ensures Spawnable(r)
    ensures r == Legendary <==> roll < LegendaryRoll
    ensures r == Rare <==> LegendaryRoll <= roll < mushroomChance
    ensures r == Common <==> LegendaryRoll <= roll && mushroomChance <= roll
  {
    if roll < LegendaryRoll then Legendary
    else if roll < mushroomChance then Rare
    else Common
  }

  /** "Native habitat": the type is listed for that rarity in the biome's record. */
  predicate IsPreferredBiome(b: Biome, r: Rarity, t: MushroomType)
    requires Spawnable(r)
  {
    t in SpawnList(GetTerrainProperties(b), r)
  }

  /** 100, 50 or 10 by rarity, times 1.5 in the native habitat (exact: the bases are even). */
  function BaseValue(r: Rarity, native: bool): int
  {
    var base := if r == Legendary then 100 else if r == Rare then 50 else 10;
    if native then base * 3 / 2 else base
  }

  function UpperAscii(c: char): char
  {
    if 'a' <= c <= 'z' then (c as int - 32) as char else c
  }

  /** `s.charAt(0).toUpperCase() + s.slice(1)` on ASCII text. */
  function Capitalize(s: string): (r: string)
    ensures |r| == |s| && (s != [] ==> r[0] == UpperAscii(s[0]) && r[1..] == s[1..])
  {
    if s == [] then [] else [UpperAscii(s[0])] + s[1..]
  }

  function NativeSuffix(native: bool): string
  {
    if native then " (native habitat)" else ""
  }

  /** The card colour of a rarity. */
  function RarityColor(r: Rarity): string
  {
    if r == Legendary then "#FF00FF" else if r == Rare then "#FFD700" else "#8B4513"
  }

  /**
   * generateMushroom(biome). `rarityRoll` and `typeRoll` are its two random draws;
   * `now` is the timestamp text that makes the id.
   */
  function GenerateMushroom(b: Biome, rarityRoll: real, typeRoll: real, now: string): (m: Mushroom)
    requires 0.0 <= typeRoll < 1.0
    ensures rarityRoll < 0.05 ==> m.rarity == Legendary
    ensures 0.05 <= rarityRoll < GetTerrainProperties(b).mushroomChance ==> m.rarity == Rare
    ensures 0.05 <= rarityRoll && GetTerrainProperties(b).mushroomChance <= rarityRoll ==> m.rarity == Common
    ensures m.rarity != Uncommon
    ensures m.kind in SpawnList(GetTerrainProperties(b), m.rarity)
    ensures m.baseValue == if m.rarity == Legendary then 150 else if m.rarity == Rare then 75 else 15
    ensures !m.identified && m.name == "Unknown Mushroom"
    ensures m.displayName == Some("Wild " + Capitalize(TypeName(m.kind)))
    ensures m.biomes == [b] && m.properties == []
    ensures m.id == "mushroom-" + now
  {
    var props := GetTerrainProperties(b);
    var rarity := RollRarity(rarityRoll, props.mushroomChance);
    var kind := GetRandomMushroomForBiome(b, rarity, typeRoll);
    var native := IsPreferredBiome(b, rarity, kind);
    Mushroom(
      id := "mushroom-" + now,
      name := "Unknown Mushroom",
      displayName := Some("Wild " + Capitalize(TypeName(kind))),
      kind := kind,
      rarity := rarity,
      biomes := [b],
      properties := [],
      baseValue := BaseValue(rarity, native),
      scientificName := "Unknown",
      description := "An unidentified " + RarityName(rarity) + " mushroom found in " + BiomeName(b) + " terrain" + NativeSuffix(native) + ".",
      realDescription := Some("A " + RarityName(rarity) + " " + TypeName(kind) + " found in " + BiomeName(b) + " terrain" + NativeSuffix(native) + "."),
      imageUrl := "",
      identified := false,
      color := RarityColor(rarity))
  }

  /** The native-habitat test always passes: the type is drawn from that very list. */
  lemma GeneratedIsAlwaysNative(b: Biome, rarityRoll: real, typeRoll: real, now: string)
    requires 0.0 <= typeRoll < 1.0
    ensures var m := GenerateMushroom(b, rarityRoll, typeRoll, now);
      IsPreferredBiome(b, m.rarity, m.kind)
  {
  }

  /** Two specimens of the same rarity have the same colour, whatever the biome or draws. */
  lemma ColorDependsOnRarityOnly(b1: Biome, r1: real, t1: real, n1: string, b2: Biome, r2: real, t2: real, n2: string)
    requires 0.0 <= t1 < 1.0 && 0.0 <= t2 < 1.0
    requires GenerateMushroom(b1, r1, t1, n1).rarity == GenerateMushroom(b2, r2, t2, n2).rarity
    ensures GenerateMushroom(b1, r1, t1, n1).color == GenerateMushroom(b2, r2, t2, n2).color
  {
  }

  /** The three colours actually used. */
  lemma ColorTable(b: Biome, rarityRoll: real, typeRoll: real, now: string)
    requires 0.0 <= typeRoll < 1.0
    ensures var m := GenerateMushroom(b, rarityRoll, typeRoll, now);
      (m.rarity == Legendary ==> m.color == "#FF00FF")
      && (m.rarity == Rare ==> m.color == "#FFD700")
      && (m.rarity == Common ==> m.color == "#8B4513")
  {
  }

  /** Every biome yields each of the three rarities for some roll. */
  lemma EveryRarityReachable(b: Biome)
    ensures GenerateMushroom(b, 0.0, 0.0, "").rarity == Legendary
    ensures GenerateMushroom(b, 0.05, 0.0, "").rarity == Rare
    ensures GenerateMushroom(b, 0.99, 0.0, "").rarity == Common
  {
  }
}
