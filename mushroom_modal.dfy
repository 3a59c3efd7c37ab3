// The specimen dialog component (src/components/ui/MushroomModal.tsx): the same
// bonuses as the exploration screen's dialog, a specimen from the shared generator,
// and a time advance before collecting.
module MushroomModal {
  import opened Wrappers
  import opened Types
  import opened TerrainUtils
  import opened MushroomUtils
  import opened MapGenerator
  import opened GameContext
  import opened ExplorationPhase

  /** The specimen the dialog shows: the shared generator on the pending tile's biome. */
  function ModalMushroom(pending: PendingEvent, rarityRoll: real, typeRoll: real, now: string): Mushroom
    requires 0.0 <= typeRoll < 1.0
  {
    GenerateMushroom(pending.tile.biome, rarityRoll, typeRoll, now)
  }

  /** handleCollect: 15 minutes per specimen, COLLECT_MUSHROOM, then TRIGGER_EVENT. */
  function ModalActions(pending: PendingEvent, m: Mushroom, quantity: int, quality: int): seq<Action>
  {
    [AdvanceTime(TimeIncrement(None, Some(15 * quantity), None))] + CollectActions(pending, m, quantity, quality)
  }

  /** The dialog's dispatches for its draws. */
  function ModalDrawnActions(pending: PendingEvent, rarityRoll: real, typeRoll: real, quantityDraw: real, qualityDraw: real, now: string): seq<Action>
    requires 0.0 <= typeRoll < 1.0 && 0.0 <= quantityDraw < 1.0 && 0.0 <= qualityDraw < 1.0
  {
    var m := ModalMushroom(pending, rarityRoll, typeRoll, now);
    var native := IsPreferredBiome(pending.tile.biome, m.rarity, m.kind);
    ModalActions(pending, m, CollectQuantity(quantityDraw, native), CollectQuality(qualityDraw, native))
  }

  /**
   * The native bonus always applies, so the dialog offers 2 to 4 specimens of quality
   * 21 to 100 and advances time by 30 to 60 minutes.
   */
  lemma ModalBonusAlwaysApplies(pending: PendingEvent, rarityRoll: real, typeRoll: real, quantityDraw: real, qualityDraw: real, now: string)
    requires 0.0 <= typeRoll < 1.0 && 0.0 <= quantityDraw < 1.0 && 0.0 <= qualityDraw < 1.0
    ensures var acts := ModalDrawnActions(pending, rarityRoll, typeRoll, quantityDraw, qualityDraw, now);
      |acts| == 3 && acts[1].CollectMushroom? && 2 <= acts[1].quantity <= 4 && 21 <= acts[1].quality <= 100
      && acts[0].AdvanceTime? && acts[0].time.minutes.Some? && 30 <= acts[0].time.minutes.value <= 60
  {
    var m := ModalMushroom(pending, rarityRoll, typeRoll, now);
    GeneratedIsAlwaysNative(pending.tile.biome, rarityRoll, typeRoll, now);
  }

  /** The reducer ignores the time advance, so the dialog leaves the state the screen's dialog leaves. */
  lemma ModalMatchesScreenDialog(s: GameState, pending: PendingEvent, m: Mushroom, quantity: int, quality: int, now: string)
    ensures Run(s, ModalActions(pending, m, quantity, quality), now) == Run(s, CollectActions(pending, m, quantity, quality), now)
  {
    RunCons(s, AdvanceTime(TimeIncrement(None, Some(15 * quantity), None)), CollectActions(pending, m, quantity, quality), now);
  }

  /** handleCollect for the dialog's specimen and bonuses. */
  method HandleCollect(g: Game, pending: PendingEvent, m: Mushroom, quantity: int, quality: int, now: string)
    returns (crashed: bool)
    requires g.Valid()
    requires IsInBounds(pending.tile.x, pending.tile.y, g.state.explorationMap.width, g.state.explorationMap.height)
    modifies g, g.tiles
    ensures g.Valid() && g.tiles == old(g.tiles)
    ensures var r := Run(old(g.state), ModalActions(pending, m, quantity, quality), now);
      (crashed <==> r.Throws?) && (!crashed ==> r == Next(g.state))
    ensures crashed ==> g.state == old(g.state) && unchanged(g.tiles)
    ensures !crashed ==> forall y, x :: 0 <= y < g.tiles.Length0 && 0 <= x < g.tiles.Length1 ==>
      g.tiles[y, x] == if x == pending.tile.x && y == pending.tile.y then ClearedTile(old(g.tiles[y, x])) else old(g.tiles[y, x])
  {
    ghost var s0 := g.state;
    var thrown := g.DispatchValue(AdvanceTime(TimeIncrement(None, Some(15 * quantity), None)), now);
    ModalMatchesScreenDialog(s0, pending, m, quantity, quality, now);
    crashed := CollectAndClear(g, pending, m, quantity, quality, now);
  }
}
