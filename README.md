# Mycological game rules in Dafny

This project models the rules of *Mycological*, a browser game in which the player
explores a hex map, collects mushrooms, survives dangers, rests, and crafts products.
It covers the rule-carrying code and leaves out the rendering. The model is split
module by module along the source files:

- `TerrainUtils` (`src/utils/terrainUtils.ts`) holds the per-biome terrain table:
  movement costs, event chances, descriptions and spawn lists.
- `MushroomUtils` (`src/utils/mushroomUtils.ts`) covers the specimen generator:
  how rarity is rolled, how the type is drawn, the base value, the names, and the
  colour.
- `MapGenerator` (`src/utils/mapGenerator.ts`) covers the grid builder:
  - offset-row hex adjacency;
  - the weighted biome draw;
  - the event draw;
  - the map builder, which fills an `array2` in place, places the start tile and
    uncovers its neighbours.
- `GameContext` (`src/context/GameContext.tsx`) holds the reducer and the game object.
  - The reducer is written as the pure function `Reduce` over a `GameState` value.
    Its outcome is `Next(state)`, or `Throws` where the source's reducer raises a
    run-time error (for example a move off the grid, or a collected-line lookup that
    reads a crafted line's missing mushroom).
  - `Run` folds a sequence of dispatches and stops at the first one that throws.
  - Class `Game` holds the state value and the tile grid as an `array2<Tile>`.
    Its `Dispatch` updates the grid in place for moves and event clearing, and
    replaces it for a new map.
- `ExplorationPhase`, `MushroomModal`, `DangerModal`, `RestModal` and `CraftingPhase`
  (the screens under `src/components/`) model the event handlers.
  - Each handler is a method on a `Game`.
  - Each method is proved to leave the game in the state that `Run` gives for an
    explicit list of dispatched actions, with the tile grid changed cell by cell as
    stated.
  - Lemmas then work out what those action lists do to health, stamina, inventory,
    day and position.

`Math.random()` draws and `Date.now()` stamps are parameters: draws are reals in
[0, 1) and stamps are strings. All chances and weights are exact rationals.

## Model

| member | source | states |
|---|---|---|
| TerrainUtils.GetTerrainProperties | src/utils/terrainUtils.ts:21-77 | every biome's record has a positive stamina cost, a non-negative health cost, positive danger and rest chances, a mushroom chance above the 5% legendary band, event chances summing below 1, and non-empty spawn lists |
| TerrainUtils.FallThroughToForest | src/utils/terrainUtils.ts:62-75 | meadow and the empty start biome fall through to the forest record |
| TerrainUtils.CostTable | src/utils/terrainUtils.ts:21-77 | movement costs are mountain 15/0, swamp 12/5, cave 8/10, and 10/0 for forest and the default (stamina/health) |
| TerrainUtils.EventChanceTable | src/utils/terrainUtils.ts:21-77 | the overall event chance is 30% on mountains, 40% in swamps, 50% in caves and 35% elsewhere |
| TerrainUtils.GetTerrainCosts | src/utils/terrainUtils.ts:79-81 | costs always charge stamina and never heal |
| TerrainUtils.GetTerrainDescription | src/utils/terrainUtils.ts:83-85 | every biome has a non-empty description |
| TerrainUtils.CostsAndDescriptionAgree | src/utils/terrainUtils.ts:79-85 | the two accessors return the record's own costs and description |
| TerrainUtils.ScaledFloorInRange | src/utils/terrainUtils.ts:94-96 | scaling a draw in [0, 1) by a list length and flooring gives a valid index |
| TerrainUtils.PickEntry | src/utils/terrainUtils.ts:94-96 | the picked entry is a member of the list; the danger dialog picks its hazard the same way |
| TerrainUtils.SpawnListNonEmpty | src/utils/terrainUtils.ts:88-97 | the common, rare and legendary spawn lists of every biome are non-empty, so the pick is defined |
| TerrainUtils.GetRandomMushroomForBiome | src/utils/terrainUtils.ts:88-97 | the chosen type belongs to the biome's spawn list for that rarity |
| MushroomUtils.RollRarity | src/utils/mushroomUtils.ts:9-15 | legendary iff the roll is below 0.05; rare iff the roll is in [0.05, mushroomChance); common iff the roll is at or above both; never uncommon |
| MushroomUtils.Capitalize | src/utils/mushroomUtils.ts:26-29 | same length, first letter upper-cased, rest unchanged |
| MushroomUtils.GenerateMushroom | src/utils/mushroomUtils.ts:4-52 | the rarity bands above hold; the type comes from the biome's list for that rarity; base value is 150, 75 or 15 by rarity (native bonus of one half included); the specimen is unidentified, named "Unknown Mushroom", shown as "Wild <Type>", tied to exactly its biome, stamped "mushroom-<now>" |
| MushroomUtils.GeneratedIsAlwaysNative | src/utils/mushroomUtils.ts:18-24 | the native-habitat test always passes for a generated specimen |
| MushroomUtils.ColorDependsOnRarityOnly | src/utils/mushroomUtils.ts:45-50 | two specimens of equal rarity get the same colour, whatever biome or draws |
| MushroomUtils.ColorTable | src/utils/mushroomUtils.ts:45-50 | legendary is magenta, rare gold, common brown |
| MushroomUtils.EveryRarityReachable | src/utils/mushroomUtils.ts:9-15 | in every biome some roll yields each of legendary, rare and common |
| MapGenerator.NeighborCandidates | src/utils/mapGenerator.ts:28-43 | the offset table has six entries |
| MapGenerator.FilterInBounds | src/utils/mapGenerator.ts:45-47 | keeps exactly the in-bounds entries, never grows, keeps distinctness, and is the identity when all are in bounds |
| MapGenerator.GetAdjacentTiles | src/utils/mapGenerator.ts:21-48 | at most six positions, all on the grid, distinct, never the cell itself |
| MapGenerator.AdjacentIff | src/utils/mapGenerator.ts:21-48 | a position is returned iff it is on the grid and a hex neighbour under the odd-row offset rule |
| MapGenerator.CandidatesAreHexNeighbors | src/utils/mapGenerator.ts:28-43 | the six offsets (shifted right on odd rows) are exactly the hex neighbours |
| MapGenerator.NextRowParity | src/utils/mapGenerator.ts:28 | neighbouring non-negative rows have opposite parity |
| MapGenerator.AdjacencySymmetric | src/utils/mapGenerator.ts:21-48 | if r is adjacent to an on-grid cell c, then c is adjacent to r |
| MapGenerator.InteriorHasSixNeighbors | src/utils/mapGenerator.ts:21-48 | a cell off the border has all six candidates as neighbours |
| MapGenerator.GetRandomBiome | src/utils/mapGenerator.ts:4-18 | the cumulative-weight loop returns the first biome whose running sum covers the draw |
| MapGenerator.WeightPrefixSums | src/utils/mapGenerator.ts:6-7 | running weight sums are 0.3, 0.45, 0.6, 0.75 and 1.0 |
| MapGenerator.BiomeBands | src/utils/mapGenerator.ts:4-18 | for a draw in [0, 1): forest iff at most 0.3, mountain iff in (0.3, 0.45], swamp iff in (0.45, 0.6], cave iff in (0.6, 0.75], meadow iff above 0.75, never the empty biome |
| MapGenerator.GenerateEvent | src/utils/mapGenerator.ts:61-85 | the tile has an event iff it has an event type, and the type follows the mushroom, danger, rest chance bands of its biome |
| MapGenerator.NoEventBand | src/utils/mapGenerator.ts:61-85 | no event iff the draw is at or above the biome's total event chance |
| MapGenerator.EveryEventReachable | src/utils/mapGenerator.ts:61-85 | in every biome each event kind, and no event, happens for some draw |
| MapGenerator.DrawCell | src/utils/mapGenerator.ts:95-104 | a cell gets its biome draw, then an event drawn for that biome, undiscovered |
| MapGenerator.FillRow | src/utils/mapGenerator.ts:94-105 | fills one row with drawn cells and leaves the other rows alone |
| MapGenerator.FillRawTiles | src/utils/mapGenerator.ts:89-106 | a fresh height-by-width grid whose every cell is the drawn cell at its coordinates |
| MapGenerator.PlaceStart | src/utils/mapGenerator.ts:108-119 | only the start cell changes, to an empty, discovered, event-free tile |
| MapGenerator.DiscoverAll | src/utils/mapGenerator.ts:121-126 | exactly the listed neighbours become discovered; nothing else changes |
| MapGenerator.FinishedCell | src/utils/mapGenerator.ts:108-126 | the three passes together give the finished cell at every position |
| MapGenerator.GenerateMap | src/utils/mapGenerator.ts:88-134 | a fresh grid of the requested size, the start at the middle of the bottom row, and every cell equal to the finished cell for its draws |
| MapGenerator.GeneratedTileWellFormed | src/utils/mapGenerator.ts:97-104 | every generated tile records its own coordinates, and has an event iff it has an event type |
| MapGenerator.StartTileFacts | src/utils/mapGenerator.ts:108-119 | the start is on the grid and is empty, discovered and event-free |
| MapGenerator.DiscoveredExactlyAroundStart | src/utils/mapGenerator.ts:108-126 | a fresh map's discovered cells are exactly the start and its neighbours |
| MapGenerator.OnlyStartIsEmpty | src/utils/mapGenerator.ts:95-119 | no cell but the start has the empty biome |
| MapGenerator.TenByTenStart | src/utils/mapGenerator.ts:108-126 | on the 10 by 10 map the start is (5, 9) and its neighbours are the four cells left, right and above |
| GameContext.ClampedAdd | src/context/GameContext.tsx:130-142 | the result lies in [0, max]; it is the plain sum when that fits, and 0 or max when the sum falls below or above |
| GameContext.RemoveAt | src/context/GameContext.tsx:241-243 | dropping one line keeps the others in order |
| GameContext.FindById | src/context/GameContext.tsx:233 | the first line with that id, or none when no line has it |
| GameContext.FindCollectLine | src/context/GameContext.tsx:188-190 | a match is a collected line of that mushroom and quality with all earlier lines non-matching collected lines; the lookup raises iff a crafted line is reached before any match |
| GameContext.CraftInventory | src/context/GameContext.tsx:262-282 | the loop consumes each ingredient in turn, then the crafted line is appended last |
| GameContext.VitalsClamped | src/context/GameContext.tsx:130-142 | a health change, and likewise a stamina change (lines 318-330), clamps to [0, max] and touches nothing else |
| GameContext.CashAndReputation | src/context/GameContext.tsx:300-316 | cash never goes below zero and is the plain sum when that is non-negative; reputation is added unclamped |
| GameContext.AdvanceDayEffect | src/context/GameContext.tsx:290-298 | a new day is one later, stamina is refilled, and health and inventory are kept |
| GameContext.ReducePreservesVitals | src/context/GameContext.tsx:85-345 | no action takes health or stamina outside [0, max] or changes the maxima |
| GameContext.MoveSetsPosition | src/context/GameContext.tsx:87-105 | a move on the grid sets the player position only; a move off it throws |
| GameContext.TriggerKeepsState | src/context/GameContext.tsx:116-128 | clearing an event changes no state value and throws when the row is off the grid |
| GameContext.GenerateSetsMap | src/context/GameContext.tsx:107-114 | a new map sets its size and the start at the middle of the bottom row |
| GameContext.CraftSetsInventory | src/context/GameContext.tsx:262-288 | crafting replaces the inventory by the consumed inventory plus the product |
| GameContext.UnhandledIsIdentity | src/context/GameContext.tsx:342-343 | a time advance reaches the default branch and changes nothing |
| GameContext.CollectEffect | src/context/GameContext.tsx:185-216 | collecting adds exactly the quantity to the inventory total: into the matching line (whose other fields are kept), or as a new line appended last at price 0 |
| GameContext.CollectedLinesNeverRaise | src/context/GameContext.tsx:188-190 | an inventory of collected lines never makes the lookup raise |
| GameContext.IdentifyEffect | src/context/GameContext.tsx:218-229 | identifying records the specimen once, marked identified, and a second identification changes nothing |
| GameContext.DiscoverAreaEffect | src/context/GameContext.tsx:168-177 | an area is recorded once, and a second discovery changes nothing |
| GameContext.SellEffect | src/context/GameContext.tsx:231-260 | an unknown id changes nothing; otherwise cash rises by price times quantity, and the line is removed when the stock is sold out or reduced by the quantity, with other lines kept |
| GameContext.SellTotal | src/context/GameContext.tsx:236-250 | a sale lowers the inventory total by the smaller of the stock and the quantity sold |
| GameContext.ConsumeOneTotal | src/context/GameContext.tsx:265-279 | consuming an ingredient lowers the total by the smaller of stock and need, or not at all when absent |
| GameContext.ConsumeAllKeepsPositive | src/context/GameContext.tsx:265-280 | if every line had positive quantity before crafting consumed ingredients, every line still has |
| GameContext.ConsumeMissingSkipped | src/context/GameContext.tsx:266-269 | an ingredient that is not in the inventory is skipped |
| GameContext.FirstLineAfterRemove | src/context/GameContext.tsx:241-243 | removing a line of one id leaves the first line of every other id as it was |
| GameContext.FirstLineAfterUpdate | src/context/GameContext.tsx:244-249 | changing a line's quantity leaves the first line of every other id as it was |
| GameContext.ConsumeOneKeepsOthers | src/context/GameContext.tsx:265-279 | a craft step for one id leaves the first line of every other id as it was |
| GameContext.ConsumeAllKeepsOthers | src/context/GameContext.tsx:265-280 | the craft steps for other ids leave the first line of an id as it was |
| GameContext.ConsumeAllTotal | src/context/GameContext.tsx:265-280 | over ingredients with distinct ids, each held in at least the required quantity, crafting lowers the inventory total by exactly the sum of the required quantities |
| GameContext.MovedTile | src/context/GameContext.tsx:94-99 | moving only uncovers, never hides: a cell is discovered after iff it was before, is the target, or neighbours it |
| GameContext.ClearedTile | src/context/GameContext.tsx:122 | a cleared tile has no event and keeps its biome, discovery and coordinates |
| GameContext.MarkDiscovered | src/context/GameContext.tsx:94-99 | in place, the target cell and the listed cells become discovered, and nothing else changes |
| GameContext.MoveTiles | src/context/GameContext.tsx:94-99 | the in-place grid update makes every cell its moved tile and keeps the grid well formed |
| GameContext.InitialGameState | src/context/GameContext.tsx:19-52 | the game starts on day 1 with an empty inventory and vitals in range |
| GameContext.Game.constructor | src/context/GameContext.tsx:19-52 | the initial state with a freshly generated 10 by 10 grid |
| GameContext.Game.Dispatch | src/context/GameContext.tsx:85-345 | thrown iff the reducer throws; the new state value is the reducer's; the grid is updated in place for a move or a cleared event, replaced for a new map or a tile update, and left alone otherwise |
| GameContext.Game.DispatchCraft | src/context/GameContext.tsx:262-288 | crafting never throws and leaves the grid alone |
| GameContext.Game.DispatchValue | src/context/GameContext.tsx:130-330 | the value-only actions follow the reducer and leave the grid alone |
| GameContext.Game.DispatchMove | src/context/GameContext.tsx:87-105 | a move follows the reducer and uncovers the target and its neighbours in place, or throws without changes |
| GameContext.Game.DispatchTrigger | src/context/GameContext.tsx:116-128 | clearing an event alters only that cell, or throws without changes |
| GameContext.Game.DispatchGenerate | src/context/GameContext.tsx:107-114 | a new map replaces the grid by a freshly generated one |
| ExplorationPhase.HandleEvent | src/components/phases/ExplorationPhase.tsx:98-116 | a mushroom event becomes pending; a danger or rest event dispatches its effects and clears its tile |
| ExplorationPhase.ResolveDanger | src/components/phases/ExplorationPhase.tsx:103-106 | dispatches a health loss of 20, then clears the tile |
| ExplorationPhase.ResolveRest | src/components/phases/ExplorationPhase.tsx:107-114 | dispatches the stamina grant and 10 health, then clears the tile |
| ExplorationPhase.PayCosts | src/components/phases/ExplorationPhase.tsx:88-91 | charges stamina, and health only when the health cost is positive |
| ExplorationPhase.PayMove | src/components/phases/ExplorationPhase.tsx:87-91 | moves the player, uncovers the target's neighbourhood and charges the costs |
| ExplorationPhase.HandleTileClick | src/components/phases/ExplorationPhase.tsx:69-96 | a click follows its action list: nothing unless the tile is adjacent and affordable, otherwise the step; the pending event and every grid cell are as stated |
| ExplorationPhase.Step | src/components/phases/ExplorationPhase.tsx:87-95 | a step moves, pays, and handles the tile's event if it has one |
| ExplorationPhase.StepOntoEvent | src/components/phases/ExplorationPhase.tsx:87-95 | a step onto an event tile is the move followed by that event's handling |
| ExplorationPhase.HandleNewGame | src/components/phases/ExplorationPhase.tsx:130-137 | restores health and stamina, then generates a fresh 10 by 10 map |
| ExplorationPhase.Restore | src/components/phases/ExplorationPhase.tsx:131-132 | restoring health and stamina leaves the grid alone |
| ExplorationPhase.ClickIgnored | src/components/phases/ExplorationPhase.tsx:69-85 | a click on a tile that is not adjacent, or not affordable, changes nothing |
| ExplorationPhase.CostsOutcome | src/components/phases/ExplorationPhase.tsx:88-91 | paying affordable costs lowers stamina by the cost and health by the cost, floored at 0 |
| ExplorationPhase.MoveOutcome | src/components/phases/ExplorationPhase.tsx:87-91 | an affordable move sets the position, pays the costs, and changes nothing else |
| ExplorationPhase.AdjacentInBounds | src/components/phases/ExplorationPhase.tsx:73-81 | an adjacent tile is on the grid |
| ExplorationPhase.ClickIsStep | src/components/phases/ExplorationPhase.tsx:69-95 | an allowed click is a step onto an on-grid, affordable tile |
| ExplorationPhase.PlainStepOutcome | src/components/phases/ExplorationPhase.tsx:83-95 | a step onto a quiet tile, or a mushroom tile, only moves and pays |
| ExplorationPhase.PlainStepActions | src/components/phases/ExplorationPhase.tsx:93-116 | such a step dispatches no event actions |
| ExplorationPhase.DangerStepOutcome | src/components/phases/ExplorationPhase.tsx:103-106 | stepping onto danger costs terrain health plus 20, floored at 0, and at 20 health or less ends the game |
| ExplorationPhase.DangerEventOutcome | src/components/phases/ExplorationPhase.tsx:103-106 | the danger event lowers health by 20, clamped, and changes nothing else |
| ExplorationPhase.RestStepOutcome | src/components/phases/ExplorationPhase.tsx:107-114 | stepping onto rest grants stamina computed from the pre-move stamina, which never refills to the maximum, and 10 health up to the maximum |
| ExplorationPhase.RestEventOutcome | src/components/phases/ExplorationPhase.tsx:107-114 | the rest event adds the grant (at most 50) to stamina and 10 to health, each clamped |
| ExplorationPhase.ClickPendingIff | src/components/phases/ExplorationPhase.tsx:98-102 | a click leaves an event pending iff it is an allowed step onto a mushroom tile |
| ExplorationPhase.ClickedTileEffect | src/components/phases/ExplorationPhase.tsx:69-116 | the stepped-on tile is discovered, keeps its biome, and loses its event iff the event was danger or rest |
| ExplorationPhase.NewGameOutcome | src/components/phases/ExplorationPhase.tsx:128-137 | a new game fills health and stamina, resets the map to 10 by 10 with start (5, 9), keeps the rest, and is over iff the maximum health is 0 |
| ExplorationPhase.ExploreMushroom | src/components/phases/ExplorationPhase.tsx:25-67 | the screen's own specimen is named "Wild <Type>", unidentified and without a display name or real description |
| ExplorationPhase.ExploreMatchesGenerator | src/components/phases/ExplorationPhase.tsx:25-67 | the screen's specimen agrees with the shared generator on id, type, rarity, value, colour and biome |
| ExplorationPhase.CollectQuantity | src/components/phases/ExplorationPhase.tsx:203-206 | between 1 and 4; at least 2 in a native habitat and at most 3 elsewhere |
| ExplorationPhase.CollectQuality | src/components/phases/ExplorationPhase.tsx:207-210 | between 1 and 100, and at least 21 in a native habitat |
| ExplorationPhase.DialogAlwaysNative | src/components/phases/ExplorationPhase.tsx:196-210 | the dialog's specimen is always native, so it always offers 2 to 4 specimens of quality 21 to 100 |
| ExplorationPhase.CollectAndClear | src/components/phases/ExplorationPhase.tsx:212-227 | collects the specimen, then clears the tile; reports a crash iff the collect throws, and then changes nothing |
| ExplorationPhase.CollectPending | src/components/phases/ExplorationPhase.tsx:196-227 | the dialog's collect button follows the drawn action list |
| ExplorationPhase.CollectActionsTotal | src/components/phases/ExplorationPhase.tsx:212-227 | on an inventory of collected lines, collecting succeeds, adds exactly the quantity to the total and changes nothing else |
| ExplorationPhase.DialogCollectTotal | src/components/phases/ExplorationPhase.tsx:196-227 | collecting from the dialog raises the inventory total by 2 to 4 |
| MushroomModal.ModalBonusAlwaysApplies | src/components/ui/MushroomModal.tsx:41-77 | the modal always offers 2 to 4 native specimens of quality 21 to 100, and first advances time by 30 to 60 minutes |
| MushroomModal.ModalMatchesScreenDialog | src/components/ui/MushroomModal.tsx:55-77 | the extra time advance is ignored by the reducer, so the modal's collect equals the screen's |
| MushroomModal.HandleCollect | src/components/ui/MushroomModal.tsx:55-77 | advances time, collects, clears the tile; a crash iff the collect throws |
| DangerModal.Damage | src/components/ui/DangerModal.tsx:35-60 | a damage roll lies in [low, low + span) |
| DangerModal.DangerTypes | src/components/ui/DangerModal.tsx:35-60 | four hazards with damage 15-24, 10-24, 10-19 and 5-19 |
| DangerModal.DamageBounds | src/components/ui/DangerModal.tsx:35-62 | the hazard drawn from the list deals 5 to 24 damage |
| DangerModal.PickQuarters | src/components/ui/DangerModal.tsx:62 | each hazard is drawn on its own quarter of [0, 1) |
| DangerModal.ContinueOutcome | src/components/ui/DangerModal.tsx:64-71 | continuing lowers health by the damage, floored at 0, and ends the game when the damage reaches the health |
| DangerModal.HandleContinue | src/components/ui/DangerModal.tsx:64-71 | dispatches the damage and clears the tile |
| RestModal.RestOutcome | src/components/ui/RestModal.tsx:36-53 | resting advances one day, fills stamina to the maximum, adds 10 health clamped, and changes nothing else |
| RestModal.RestAndClear | src/components/ui/RestModal.tsx:40-45 | the first three dispatches of resting, ending with the tile cleared |
| RestModal.HandleRest | src/components/ui/RestModal.tsx:36-53 | the rest button follows its action list and clears only the event tile |
| CraftingPhase.FindByMushroomId | src/components/phases/CraftingPhase.tsx:55-57 | the first line carrying the id, or none when no line does |
| CraftingPhase.GetIngredientsForRecipe | src/components/phases/CraftingPhase.tsx:63-74 | fails with "Missing ingredient" iff some ingredient has no line; on success one entry per ingredient, each its line with the recipe's quantity |
| CraftingPhase.CanCraftFindsIngredients | src/components/phases/CraftingPhase.tsx:53-74 | when the recipe is craftable the lookup succeeds and every ingredient is held in sufficient quantity |
| CraftingPhase.HeldIngredient | src/components/phases/CraftingPhase.tsx:53-60 | a held ingredient is found with enough stock |
| CraftingPhase.LookupIgnoresQuantity | src/components/phases/CraftingPhase.tsx:63-74 | the lookup succeeds on a stock too small to craft, so only the button guard enforces quantities |
| CraftingPhase.CollectedLinesCannotCraft | src/components/phases/CraftingPhase.tsx:53-74 | an inventory of collected lines can never craft, because those lines carry no mushroom id |
| CraftingPhase.CraftedItem | src/components/phases/CraftingPhase.tsx:91-97 | the product line carries the result id, quantity 1, quality 100, the result's value as price, and an id stamped with the time |
| CraftingPhase.CraftOutcome | src/components/phases/CraftingPhase.tsx:100-106 | crafting appends the product last, keeps every other state field, and keeps all quantities positive |
| CraftingPhase.CraftingScreen.constructor | src/components/phases/CraftingPhase.tsx:45-46 | no recipe selected and not crafting |
| CraftingPhase.CraftingScreen.ClickRecipe | src/components/phases/CraftingPhase.tsx:126-134 | a recipe card selects its recipe iff the recipe is craftable |
| CraftingPhase.CraftingScreen.HandleCraft | src/components/phases/CraftingPhase.tsx:80-116 | without a selection nothing happens; otherwise it fails iff an ingredient is missing, leaves the game as it was on failure, and on success dispatches the craft and clears the selection |
| CraftingPhase.CraftingScreen.PressCraft | src/components/phases/CraftingPhase.tsx:218-223 | the button acts iff a craftable recipe is selected and no craft is running, and then the craft succeeds; the crafting flag is false again afterwards, so the button is re-enabled |

## Left out

- I/O is out of scope. Randomness and the clock are parameters: every `Math.random()` is a real draw in [0, 1), and every `Date.now()` is a string stamp.
- JavaScript numbers are modelled as mathematical integers for counts and stats, and as exact rationals for chances.
- Time of day (`currentTime`) is not part of the state. The source's reducer has no branch for `ADVANCE_TIME`, so it reaches the default branch and changes nothing.
- The shop's own inventory is not part of the state, and neither are an area's descriptive fields beyond id, name and biome. No rule reads them.
- GameContext.Game.Dispatch: assumes a `TRIGGER_EVENT` with an on-grid row also has an on-grid column. With an off-grid column the source writes a stray entry into the row array.
- GameContext.Game.Dispatch: a `GENERATE_NEW_MAP` must be at least 1 by 1, with draws for every cell. Every caller in the source asks for 10 by 10. On a smaller map the builder (src/utils/mapGenerator.ts:108-119) behaves as follows, and the model does not capture either case. With height 0 it writes the start tile into the undefined row `tiles[-1]` and throws a TypeError. With width 0 and height at least 1 it writes the start tile at x = 0 into the last, empty row and returns normally, leaving a tile outside the map's width.
- GameContext.Game.Dispatch: an `UPDATE_MAP_TILES` payload must match the map's size and be well formed. The source takes any array.
- MapGenerator.GenerateMap: requires a width and height of at least 1, for the reasons given in the previous `GENERATE_NEW_MAP` entry.
- A reducer that throws ends the handler, which models React's render error. Later dispatches of that handler are not modelled.
- The crafting screen's two-second `setTimeout` is collapsed into the click. The intermediate "crafting" rendering is not modelled.
- `setPendingEvent(null)` and the pending state of the screen are not tracked beyond each handler's result.
- The "Leave" and other close buttons dispatch nothing.
- The game-over gating of the exploration screen is not modelled. The screen renders the tile grid only while the game is not over, and the New Game button only once it is (src/components/phases/ExplorationPhase.tsx:141, :154). `ExplorationPhase.HandleTileClick` and `ExplorationPhase.HandleNewGame` accept a call in any state, and their contracts hold in every state.
- The modals' null-pending early returns render nothing.
- The specimen dialog draws its specimen and bonuses on every render in the source. Here one set of draws is the parameter of each handler.
- Rendering is not modelled: the 3D view, styling, tile positions, and the display components.
- The shop and identification screens are not part of this model, and neither are the static mushroom and companion data tables.
- The crafting screen's "crafted items" list is display-only. It filters on `item.mushroomId.includes`, which throws on collected lines without an id.
- The danger modal's comments announce damage ranges of 15-25, 10-25, 10-20 and 5-20. The model follows the code, whose ranges are 15-24, 10-24, 10-19 and 5-19.
- Only the one recipe that the crafting screen defines is modelled.
- CraftingPhase.CraftingScreen.HandleCraft: the `catch` only logs, so the model returns `failed` instead.
- The rest event's stamina grant is computed from the player as seen before the move's costs. This follows the code. `ExplorationPhase.RestStepOutcome` states the consequence.
- React context plumbing (provider, hook) is not modelled. Neither are the action type union's typing details.
