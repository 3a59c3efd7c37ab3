// The game's records and tags (src/types/index.ts).
module Types {
  import opened Wrappers

  datatype Biome = Forest | Mountain | Swamp | Cave | Meadow | Empty

  datatype MushroomType =
    | Bolete | Morel | Chanterelle | Russula | Reishi | Agaricus | Amanita
    | Coprinus | Lactarius | Psilocybe | Pleurotus | Morchella | Tricholoma
    | Hygrocybe | Cortinarius | Clavaria | Suillus | Hebeloma | Entoloma | Armillaria

  datatype Rarity = Common | Uncommon | Rare | Legendary

  /** The three kinds of tile event ("mushroom", "danger", "rest"). */
  datatype EventType = MushroomEvent | DangerEvent | RestEvent

  datatype GamePhase = Exploration | Identification | ShopPhase | Crafting

  /** The biome tag as the source spells it, used in generated descriptions. */
  function BiomeName(b: Biome): string
  {
    match b
    case Forest => "forest"
    case Mountain => "mountain"
    case Swamp => "swamp"
    case Cave => "cave"
    case Meadow => "meadow"
    case Empty => "empty"
  }

  function RarityName(r: Rarity): string
  {
    match r
    case Common => "common"
    case Uncommon => "uncommon"
    case Rare => "rare"
    case Legendary => "legendary"
  }

  function TypeName(t: MushroomType): string
  {
    match t
    case Bolete => "bolete"
    case Morel => "morel"
    case Chanterelle => "chanterelle"
    case Russula => "russula"
    case Reishi => "reishi"
    case Agaricus => "agaricus"
    case Amanita => "amanita"
    case Coprinus => "coprinus"
    case Lactarius => "lactarius"
    case Psilocybe => "psilocybe"
    case Pleurotus => "pleurotus"
    case Morchella => "morchella"
    case Tricholoma => "tricholoma"
    case Hygrocybe => "hygrocybe"
    case Cortinarius => "cortinarius"
    case Clavaria => "clavaria"
    case Suillus => "suillus"
    case Hebeloma => "hebeloma"
    case Entoloma => "entoloma"
    case Armillaria => "armillaria"
  }

  datatype Position = Position(x: int, y: int)

  /** A map cell; `eventType` is the optional field of the source record. */
  datatype Tile = Tile(x: int, y: int, biome: Biome, discovered: bool, hasEvent: bool, eventType: Option<EventType>)

  /**
   * A specimen record. `displayName` and `realDescription` are optional because the
   * exploration screen's own generator leaves them out.
   */
  datatype Mushroom = Mushroom(
    id: string,
    name: string,
    displayName: Option<string>,
    kind: MushroomType,
    rarity: Rarity,
    biomes: seq<Biome>,
    properties: seq<string>,
    baseValue: int,
    scientificName: string,
    description: string,
    realDescription: Option<string>,
    imageUrl: string,
    identified: bool,
    color: string)

  /**
   * An inventory line. Collected lines carry a mushroom and no `mushroomId`; crafted
   * lines carry a `mushroomId` and no mushroom.
   */
  datatype Item = Item(
    id: string,
    mushroom: Option<Mushroom>,
    mushroomId: Option<string>,
    quantity: int,
    quality: int,
    price: int)

  datatype Companion = Companion(id: string, name: string, kind: string, skills: seq<string>, imageUrl: string)

  datatype Player = Player(
    name: string,
    health: int,
    maxHealth: int,
    stamina: int,
    maxStamina: int,
    skills: seq<string>,
    companions: seq<Companion>)

  datatype Shop = Shop(id: string, name: string, level: int, reputation: int, upgrades: seq<string>, cash: int)

  /** An exploration area; only its identity matters to the rules. */
  datatype Area = Area(id: string, name: string, biome: Biome)

  /** The payload of a time advance; every field is optional in the source. */
  datatype TimeIncrement = TimeIncrement(hours: Option<int>, minutes: Option<int>, reset: Option<bool>)

  /** The value part of the exploration map; its tile grid lives in an array (see GameContext). */
  datatype MapInfo = MapInfo(playerPosition: Position, width: int, height: int)

  /** The screens' pending event: the tile that raised it and its kind. */
  datatype PendingEvent = PendingEvent(tile: Tile, kind: EventType)

  datatype GameState = GameState(
    shop: Shop,
    knownMushrooms: seq<Mushroom>,
    discoveredAreas: seq<Area>,
    currentArea: Option<Area>,
    currentDay: int,
    gamePhase: GamePhase,
    player: Player,
    explorationMap: MapInfo,
    inventory: seq<Item>)
}
