// The exploration screen's rules (src/components/phases/ExplorationPhase.tsx): the
// click handler, the tile-event handler, the game-over test, a new expedition and the
// specimen dialog. Each handler is the sequence of actions it dispatches; its
// methods on Game are proved to leave the state that sequence leads to.
module ExplorationPhase {
  import opened Wrappers
  import opened Types
  import opened TerrainUtils
  import opened MushroomUtils
  import opened MapGenerator
  import opened GameContext

  /** The click test: the tile is one of the player's in-bounds neighbours. */
  predicate IsAdjacentToPlayer(s: GameState, tile: Tile)
  {
    var m := s.explorationMap;
    Position(tile.x, tile.y) in GetAdjacentTiles(m.playerPosition.x, m.playerPosition.y, m.width, m.height)
  }

  /** A click moves only to an adjacent tile whose stamina cost the player can pay. */
  predicate CanMoveTo(s: GameState, tile: Tile)
  {
    IsAdjacentToPlayer(s, tile) && s.player.stamina >= GetTerrainCosts(tile.biome).stamina
  }

  /** The terrain's costs of a move: stamina, then health when positive. */
  function CostActions(c: TerrainCosts): seq<Action>
  {
    [UpdateStamina(-c.stamina)] + (if c.health > 0 then [UpdateHealth(-c.health)] else [])
  }

  /** The move and its terrain costs; a health cost is dispatched only when positive. */
  function MoveActions(tile: Tile): seq<Action>
  {
    [MovePlayer(tile.x, tile.y)] + CostActions(GetTerrainCosts(tile.biome))
  }

  /**
   * handleEvent's dispatches. `seen` is the player as the screen rendered it, before
   * the click's own dispatches: the rest grant is computed from that stamina.
   */
  function EventActions(seen: Player, tile: Tile): seq<Action>
  {
    match tile.eventType
    case Some(DangerEvent) => [UpdateHealth(-20), TriggerEvent(tile.x, tile.y)]
    case Some(RestEvent) =>
      [UpdateStamina(Min(50, seen.maxStamina - seen.stamina)), UpdateHealth(10), TriggerEvent(tile.x, tile.y)]
    case _ => []
  }

  /** The dispatches of a click that passes both tests. */
  function StepActions(s: GameState, tile: Tile): seq<Action>
  {
    MoveActions(tile) + (if tile.hasEvent then EventActions(s.player, tile) else [])
  }

  /** handleTileClick's dispatches. */
  function ClickActions(s: GameState, tile: Tile): seq<Action>
  {
    if CanMoveTo(s, tile) then StepActions(s, tile) else []
  }

  /** A mushroom event is left pending for the dialog; other events resolve at once. */
  function EventPending(tile: Tile): Option<PendingEvent>
  {
    if tile.eventType == Some(MushroomEvent) then Some(PendingEvent(tile, MushroomEvent)) else None
  }

  /** What a step leaves for the dialog. */
  function StepPending(tile: Tile): Option<PendingEvent>
  {
    if tile.hasEvent then EventPending(tile) else None
  }

  function ClickPending(s: GameState, tile: Tile): Option<PendingEvent>
  {
    if CanMoveTo(s, tile) then StepPending(tile) else None
  }

  /** Danger and rest events clear their tile. */
  predicate ClearsEvent(tile: Tile)
  {
    tile.eventType == Some(DangerEvent) || tile.eventType == Some(RestEvent)
  }

  /** handleEvent on one cell. */
  function EventTile(t: Tile, p: Position, tile: Tile): Tile
  {
    if p == Position(tile.x, tile.y) && ClearsEvent(tile) then ClearedTile(t) else t
  }

  /** A step onto `tile` on one cell: the move's discoveries, then the event's clearing. */
  function StepTile(t: Tile, p: Position, s: GameState, tile: Tile): Tile
  {
    var moved := MovedTile(t, p, Position(tile.x, tile.y), s.explorationMap.width, s.explorationMap.height);
    if tile.hasEvent then EventTile(moved, p, tile) else moved
  }

  /** handleTileClick on one cell. */
  function ClickedTile(t: Tile, p: Position, s: GameState, tile: Tile): Tile
  {
    if CanMoveTo(s, tile) then StepTile(t, p, s, tile) else t
  }

  /** handleEvent(tile), with `seen` the player of the rendered state. */
  method HandleEvent(g: Game, tile: Tile, seen: Player, now: string) returns (pending: Option<PendingEvent>)
    requires g.Valid()
    requires IsInBounds(tile.x, tile.y, g.state.explorationMap.width, g.state.explorationMap.height)
    modifies g, g.tiles
    ensures g.Valid() && g.tiles == old(g.tiles)
    ensures g.state.explorationMap == old(g.state.explorationMap)
    ensures Run(old(g.state), EventActions(seen, tile), now) == Next(g.state)
    ensures pending == EventPending(tile)
    ensures forall y, x :: 0 <= y < g.tiles.Length0 && 0 <= x < g.tiles.Length1 ==>
      g.tiles[y, x] == EventTile(old(g.tiles[y, x]), Position(x, y), tile)
  {
    pending := None;
    match tile.eventType {
      case Some(MushroomEvent) =>
        pending := Some(PendingEvent(tile, MushroomEvent));
        assert EventActions(seen, tile) == [];
      case Some(DangerEvent) =>
        ResolveDanger(g, tile, now);
      case Some(RestEvent) =>
        ResolveRest(g, tile, Min(50, seen.maxStamina - seen.stamina), now);
      case None =>
    }
  }

  /** A danger event: twenty health lost, then the event cleared. */
  method ResolveDanger(g: Game, tile: Tile, now: string)
    requires g.Valid()
    requires IsInBounds(tile.x, tile.y, g.state.explorationMap.width, g.state.explorationMap.height)
    modifies g, g.tiles
    ensures g.Valid() && g.tiles == old(g.tiles)
    ensures g.state.explorationMap == old(g.state.explorationMap)
    ensures Run(old(g.state), [UpdateHealth(-20), TriggerEvent(tile.x, tile.y)], now) == Next(g.state)
    ensures forall y, x :: 0 <= y < g.tiles.Length0 && 0 <= x < g.tiles.Length1 ==>
      g.tiles[y, x] == if x == tile.x && y == tile.y then ClearedTile(old(g.tiles[y, x])) else old(g.tiles[y, x])
  {
    ghost var s0 := g.state;
    var thrown := g.DispatchValue(UpdateHealth(-20), now);
    RunSnoc(s0, [], UpdateHealth(-20), now);
    thrown := g.DispatchTrigger(TriggerEvent(tile.x, tile.y), now);
    RunSnoc(s0, [UpdateHealth(-20)], TriggerEvent(tile.x, tile.y), now);
  }

  /** A rest event: the stamina grant, ten health, then the event cleared. */
  method ResolveRest(g: Game, tile: Tile, grant: int, now: string)
    requires g.Valid()
    requires IsInBounds(tile.x, tile.y, g.state.explorationMap.width, g.state.explorationMap.height)
    modifies g, g.tiles
    ensures g.Valid() && g.tiles == old(g.tiles)
    ensures g.state.explorationMap == old(g.state.explorationMap)
    ensures Run(old(g.state), [UpdateStamina(grant), UpdateHealth(10), TriggerEvent(tile.x, tile.y)], now) == Next(g.state)
    ensures forall y, x :: 0 <= y < g.tiles.Length0 && 0 <= x < g.tiles.Length1 ==>
      g.tiles[y, x] == if x == tile.x && y == tile.y then ClearedTile(old(g.tiles[y, x])) else old(g.tiles[y, x])
  {
    ghost var s0 := g.state;
    var thrown := g.DispatchValue(UpdateStamina(grant), now);
    RunSnoc(s0, [], UpdateStamina(grant), now);
    thrown := g.DispatchValue(UpdateHealth(10), now);
    RunSnoc(s0, [UpdateStamina(grant)], UpdateHealth(10), now);
    thrown := g.DispatchTrigger(TriggerEvent(tile.x, tile.y), now);
    RunSnoc(s0, [UpdateStamina(grant), UpdateHealth(10)], TriggerEvent(tile.x, tile.y), now);
  }

  /** The cost dispatches of handleTileClick; the tiles are left as they are. */
  method PayCosts(g: Game, costs: TerrainCosts, now: string)
    requires g.Valid()
    modifies g, g.tiles
    ensures g.Valid() && g.tiles == old(g.tiles) && unchanged(g.tiles)
    ensures g.state.explorationMap == old(g.state.explorationMap)
    ensures Run(old(g.state), CostActions(costs), now) == Next(g.state)
  {
    ghost var s0 := g.state;
    var pay := UpdateStamina(-costs.stamina);
    var thrown := g.DispatchValue(pay, now);
    RunSnoc(s0, [], pay, now);
    if costs.health > 0 {
      var hurt := UpdateHealth(-costs.health);
      thrown := g.DispatchValue(hurt, now);
      RunSnoc(s0, [pay], hurt, now);
    }
  }

  /** The move part of handleTileClick: MOVE_PLAYER, then the terrain's costs. */
  method PayMove(g: Game, tile: Tile, now: string)
    requires g.Valid()
    requires IsInBounds(tile.x, tile.y, g.state.explorationMap.width, g.state.explorationMap.height)
    modifies g, g.tiles
    ensures g.Valid() && g.tiles == old(g.tiles)
    ensures g.state.explorationMap.width == old(g.state.explorationMap.width)
    ensures g.state.explorationMap.height == old(g.state.explorationMap.height)
    ensures Run(old(g.state), MoveActions(tile), now) == Next(g.state)
    ensures forall y, x :: 0 <= y < g.tiles.Length0 && 0 <= x < g.tiles.Length1 ==>
      g.tiles[y, x] == MovedTile(old(g.tiles[y, x]), Position(x, y), Position(tile.x, tile.y), g.tiles.Length1, g.tiles.Length0)
  {
    ghost var s0 := g.state;
    var move := MovePlayer(tile.x, tile.y);
    var costs := GetTerrainCosts(tile.biome);
    assert MoveActions(tile) == [move] + CostActions(costs);
    var thrown := g.DispatchMove(move, now);
    RunSnoc(s0, [], move, now);
    ghost var s1 := g.state;
    PayCosts(g, costs, now);
    RunAppend(s0, [move], CostActions(costs), now);
  }

  /** handleTileClick on the tile at row `cy`, column `cx`. */
  method HandleTileClick(g: Game, cx: int, cy: int, now: string) returns (pending: Option<PendingEvent>)
    requires g.Valid() && 0 <= cy < g.tiles.Length0 && 0 <= cx < g.tiles.Length1
    modifies g, g.tiles
    ensures g.Valid() && g.tiles == old(g.tiles)
    ensures Run(old(g.state), ClickActions(old(g.state), old(g.tiles[cy, cx])), now) == Next(g.state)
    ensures pending == ClickPending(old(g.state), old(g.tiles[cy, cx]))
    ensures forall y, x :: 0 <= y < g.tiles.Length0 && 0 <= x < g.tiles.Length1 ==>
      g.tiles[y, x] == ClickedTile(old(g.tiles[y, x]), Position(x, y), old(g.state), old(g.tiles[cy, cx]))
  {
    var tile := g.tiles[cy, cx];
    var m := g.state.explorationMap;
    var adjacentTiles := GetAdjacentTiles(m.playerPosition.x, m.playerPosition.y, m.width, m.height);
    pending := None;
    if Position(tile.x, tile.y) !in adjacentTiles {
      return;
    }
    var costs := GetTerrainCosts(tile.biome);
    if g.state.player.stamina < costs.stamina {
      return;
    }
    ClickIsStep(g.state, tile);
    pending := Step(g, tile, now);
  }

  /** A click that passed both tests: the move, its costs, then the tile's event. */
  method Step(g: Game, tile: Tile, now: string) returns (pending: Option<PendingEvent>)
    requires g.Valid()
    requires IsInBounds(tile.x, tile.y, g.state.explorationMap.width, g.state.explorationMap.height)
    modifies g, g.tiles
    ensures g.Valid() && g.tiles == old(g.tiles)
    ensures Run(old(g.state), StepActions(old(g.state), tile), now) == Next(g.state)
    ensures pending == StepPending(tile)
    ensures forall y, x :: 0 <= y < g.tiles.Length0 && 0 <= x < g.tiles.Length1 ==>
      g.tiles[y, x] == StepTile(old(g.tiles[y, x]), Position(x, y), old(g.state), tile)
  {
    if tile.hasEvent {
      pending := StepOntoEvent(g, tile, now);
    } else {
      PayMove(g, tile, now);
      pending := None;
      assert MoveActions(tile) + [] == MoveActions(tile);
    }
  }

  /** A step onto a tile with an event: the move and its costs, then handleEvent. */
  method StepOntoEvent(g: Game, tile: Tile, now: string) returns (pending: Option<PendingEvent>)
    requires g.Valid() && tile.hasEvent
    requires IsInBounds(tile.x, tile.y, g.state.explorationMap.width, g.state.explorationMap.height)
    modifies g, g.tiles
    ensures g.Valid() && g.tiles == old(g.tiles)
    ensures Run(old(g.state), MoveActions(tile) + EventActions(old(g.state).player, tile), now) == Next(g.state)
    ensures pending == EventPending(tile)
    ensures forall y, x :: 0 <= y < g.tiles.Length0 && 0 <= x < g.tiles.Length1 ==>
      g.tiles[y, x] == EventTile(MovedTile(old(g.tiles[y, x]), Position(x, y), Position(tile.x, tile.y), g.tiles.Length1, g.tiles.Length0), Position(x, y), tile)
  {
    ghost var s0 := g.state;
    var seen := g.state.player;
    PayMove(g, tile, now);
    pending := HandleEvent(g, tile, seen, now);
    RunAppend(s0, MoveActions(tile), EventActions(seen, tile), now);
  }

  /** The game-over overlay shows once health has reached zero. */
  predicate IsGameOver(s: GameState)
  {
    s.player.health <= 0
  }

  /** handleNewGame's dispatches: full health, full stamina, a fresh 10 x 10 map. */
  function NewGameActions(s: GameState): seq<Action>
  {
    [UpdateHealth(s.player.maxHealth), UpdateStamina(s.player.maxStamina), GenerateNewMap(10, 10)]
  }

  /** handleNewGame, the new map built from the given draws. */
  method HandleNewGame(g: Game, draws: MapDraws, now: string)
    requires g.Valid() && Fits(draws, 10, 10)
    modifies g, g.tiles
    ensures g.Valid() && fresh(g.tiles) && g.tiles.Length0 == 10 && g.tiles.Length1 == 10
    ensures Run(old(g.state), NewGameActions(old(g.state)), now) == Next(g.state)
    ensures forall y, x :: 0 <= y < 10 && 0 <= x < 10 ==>
      g.tiles[y, x] == GeneratedTile(x, y, 10, 10, draws.biome[y][x], draws.event[y][x])
  {
    ghost var s0 := g.state;
    Restore(g, now);
    var thrown := g.Dispatch(GenerateNewMap(10, 10), now, draws);
    RunSnoc(s0, NewGameActions(s0)[..2], GenerateNewMap(10, 10), now);
    assert NewGameActions(s0)[..2] + [GenerateNewMap(10, 10)] == NewGameActions(s0);
  }

  /** The first two dispatches of handleNewGame: health and stamina raised by their maxima. */
  method Restore(g: Game, now: string)
    requires g.Valid()
    modifies g, g.tiles
    ensures g.Valid() && g.tiles == old(g.tiles) && unchanged(g.tiles)
    ensures Run(old(g.state), NewGameActions(old(g.state))[..2], now) == Next(g.state)
  {
    ghost var s0 := g.state;
    var heal := UpdateHealth(g.state.player.maxHealth);
    var refill := UpdateStamina(g.state.player.maxStamina);
    var thrown := g.DispatchValue(heal, now);
    RunSnoc(s0, [], heal, now);
    thrown := g.DispatchValue(refill, now);
    RunSnoc(s0, [heal], refill, now);
    assert NewGameActions(s0)[..2] == [heal, refill];
  }

  /** A click that is not adjacent, or that the player cannot pay for, does nothing. */
  lemma ClickIgnored(s: GameState, tile: Tile, now: string)
    requires !CanMoveTo(s, tile)
    ensures Run(s, ClickActions(s, tile), now) == Next(s)
    ensures ClickPending(s, tile).None?
    ensures forall t: Tile, p: Position :: ClickedTile(t, p, s, tile) == t
  {
  }

  /** Paying costs the player can afford: exact stamina, health floored at zero. */
  lemma CostsOutcome(s: GameState, c: TerrainCosts, now: string)
    requires VitalsInRange(s.player) && 0 <= c.stamina <= s.player.stamina && c.health >= 0
    ensures Run(s, CostActions(c), now) ==
      Next(s.(player := s.player.(stamina := s.player.stamina - c.stamina, health := Max(0, s.player.health - c.health))))
  {
    var s1 := s.(player := s.player.(stamina := s.player.stamina - c.stamina));
    var charge := if c.health > 0 then [UpdateHealth(-c.health)] else [];
    RunAppend(s, [UpdateStamina(-c.stamina)], charge, now);
    assert Run(s, [UpdateStamina(-c.stamina)], now) == Next(s1);
    if c.health > 0 {
      assert Run(s1, charge, now) == Next(s1.(player := s1.player.(health := Max(0, s.player.health - c.health))));
    }
  }

  /** The state after the move and its costs, before any event. */
  lemma {:induction false} MoveOutcome(s: GameState, tile: Tile, now: string)
    requires VitalsInRange(s.player)
    requires IsInBounds(tile.x, tile.y, s.explorationMap.width, s.explorationMap.height)
    requires s.player.stamina >= GetTerrainCosts(tile.biome).stamina
    ensures var c := GetTerrainCosts(tile.biome);
      var r := Run(s, MoveActions(tile), now);
      r.Next?
      && r.state.explorationMap == s.explorationMap.(playerPosition := Position(tile.x, tile.y))
      && r.state.player == s.player.(stamina := s.player.stamina - c.stamina, health := Max(0, s.player.health - c.health))
      && r.state.(explorationMap := s.explorationMap, player := s.player) == s
  {
    var c := GetTerrainCosts(tile.biome);
    var s1 := s.(explorationMap := s.explorationMap.(playerPosition := Position(tile.x, tile.y)));
    RunAppend(s, [MovePlayer(tile.x, tile.y)], CostActions(c), now);
    assert Run(s, [MovePlayer(tile.x, tile.y)], now) == Next(s1);
    CostsOutcome(s1, c, now);
  }

  /** A neighbour returned by the adjacency test lies on the map. */
  lemma AdjacentInBounds(s: GameState, tile: Tile)
    requires IsAdjacentToPlayer(s, tile)
    ensures IsInBounds(tile.x, tile.y, s.explorationMap.width, s.explorationMap.height)
  {
  }

  /** A click that passes both tests dispatches the step onto an in-bounds tile the player can pay for. */
  lemma ClickIsStep(s: GameState, tile: Tile)
    requires CanMoveTo(s, tile)
    ensures ClickActions(s, tile) == StepActions(s, tile)
    ensures IsInBounds(tile.x, tile.y, s.explorationMap.width, s.explorationMap.height)
    ensures s.player.stamina >= GetTerrainCosts(tile.biome).stamina
  {
    AdjacentInBounds(s, tile);
  }

  /**
   * A step onto a tile without a danger or rest event moves the player there, charges
   * exactly the terrain's stamina cost and its health cost (health floored at zero),
   * and leaves inventory, day and shop alone.
   */
  lemma {:induction false} PlainStepOutcome(s: GameState, tile: Tile, now: string)
    requires VitalsInRange(s.player)
    requires IsInBounds(tile.x, tile.y, s.explorationMap.width, s.explorationMap.height)
    requires s.player.stamina >= GetTerrainCosts(tile.biome).stamina
    requires !(tile.hasEvent && ClearsEvent(tile))
    ensures var c := GetTerrainCosts(tile.biome);
      var r := Run(s, StepActions(s, tile), now);
      r.Next?
      && r.state.explorationMap.playerPosition == Position(tile.x, tile.y)
      && r.state.player.stamina == s.player.stamina - c.stamina
      && r.state.player.health == Max(0, s.player.health - c.health)
      && r.state.inventory == s.inventory && r.state.currentDay == s.currentDay && r.state.shop == s.shop
  {
    PlainStepActions(s, tile);
    MoveOutcome(s, tile, now);
  }

  /** Without a danger or rest event, a step dispatches only the move and its costs. */
  lemma PlainStepActions(s: GameState, tile: Tile)
    requires !(tile.hasEvent && ClearsEvent(tile))
    ensures StepActions(s, tile) == MoveActions(tile)
  {
    assert tile.hasEvent ==> EventActions(s.player, tile) == [];
    assert MoveActions(tile) + [] == MoveActions(tile);
  }

  /** A step onto a danger tile costs 20 more health and can end the game. */
  lemma DangerStepOutcome(s: GameState, tile: Tile, now: string)
    requires VitalsInRange(s.player)
    requires IsInBounds(tile.x, tile.y, s.explorationMap.width, s.explorationMap.height)
    requires s.player.stamina >= GetTerrainCosts(tile.biome).stamina
    requires tile.hasEvent && tile.eventType == Some(DangerEvent)
    ensures var c := GetTerrainCosts(tile.biome);
      var r := Run(s, StepActions(s, tile), now);
      r.Next?
      && r.state.explorationMap.playerPosition == Position(tile.x, tile.y)
      && r.state.player.stamina == s.player.stamina - c.stamina
      && r.state.player.health == Max(0, s.player.health - c.health - 20)
      && r.state.inventory == s.inventory
    ensures s.player.health <= 20 ==> IsGameOver(Run(s, StepActions(s, tile), now).state)
  {
    MoveOutcome(s, tile, now);
    var s1 := Run(s, MoveActions(tile), now).state;
    RunAppend(s, MoveActions(tile), EventActions(s.player, tile), now);
    DangerEventOutcome(s1, s.player, tile, now);
  }

  /** handleEvent on a danger tile: 20 health, floored at zero; nothing else changes. */
  lemma DangerEventOutcome(s: GameState, seen: Player, tile: Tile, now: string)
    requires IsInBounds(tile.x, tile.y, s.explorationMap.width, s.explorationMap.height)
    requires tile.eventType == Some(DangerEvent)
    ensures Run(s, EventActions(seen, tile), now) ==
      Next(s.(player := s.player.(health := Max(0, Min(s.player.maxHealth, s.player.health - 20)))))
  {
    RunAppend(s, [UpdateHealth(-20)], [TriggerEvent(tile.x, tile.y)], now);
    var s2 := Apply(s, UpdateHealth(-20), now);
    assert Run(s, [UpdateHealth(-20)], now) == Next(s2);
    assert Run(s2, [TriggerEvent(tile.x, tile.y)], now) == Next(s2);
  }

  /**
   * A step onto a rest tile grants min(50, max - stamina) with the stamina seen before
   * the move, then 10 health. Because the move's cost was already paid, a rest reached
   * by a move never refills stamina to its maximum.
   */
  lemma RestStepOutcome(s: GameState, tile: Tile, now: string)
    requires VitalsInRange(s.player)
    requires IsInBounds(tile.x, tile.y, s.explorationMap.width, s.explorationMap.height)
    requires s.player.stamina >= GetTerrainCosts(tile.biome).stamina
    requires tile.hasEvent && tile.eventType == Some(RestEvent)
    ensures var c := GetTerrainCosts(tile.biome);
      var p := s.player;
      var r := Run(s, StepActions(s, tile), now);
      r.Next?
      && r.state.explorationMap.playerPosition == Position(tile.x, tile.y)
      && r.state.player.stamina == p.stamina - c.stamina + Min(50, p.maxStamina - p.stamina)
      && r.state.player.stamina < p.maxStamina
      && r.state.player.health == Min(p.maxHealth, Max(0, p.health - c.health) + 10)
      && r.state.inventory == s.inventory
  {
    MoveOutcome(s, tile, now);
    var s1 := Run(s, MoveActions(tile), now).state;
    RunAppend(s, MoveActions(tile), EventActions(s.player, tile), now);
    RestEventOutcome(s1, s.player, tile, now);
  }

  /** handleEvent on a rest tile: the grant computed from `seen`, then 10 health, each clamped. */
  lemma {:induction false} RestEventOutcome(s: GameState, seen: Player, tile: Tile, now: string)
    requires IsInBounds(tile.x, tile.y, s.explorationMap.width, s.explorationMap.height)
    requires tile.eventType == Some(RestEvent)
    ensures var p := s.player;
      Run(s, EventActions(seen, tile), now) ==
      Next(s.(player := p.(
        stamina := ClampedAdd(p.stamina, Min(50, seen.maxStamina - seen.stamina), p.maxStamina),
        health := ClampedAdd(p.health, 10, p.maxHealth))))
  {
    var grant := UpdateStamina(Min(50, seen.maxStamina - seen.stamina));
    RunAppend(s, [grant], [UpdateHealth(10), TriggerEvent(tile.x, tile.y)], now);
    var s2 := Apply(s, grant, now);
    assert Run(s, [grant], now) == Next(s2);
    RunAppend(s2, [UpdateHealth(10)], [TriggerEvent(tile.x, tile.y)], now);
    var s3 := Apply(s2, UpdateHealth(10), now);
    assert Run(s2, [UpdateHealth(10)], now) == Next(s3);
    assert Run(s3, [TriggerEvent(tile.x, tile.y)], now) == Next(s3);
  }

  /** Only a mushroom event of a click that moves is left pending. */
  lemma ClickPendingIff(s: GameState, tile: Tile)
    ensures ClickPending(s, tile).Some? <==> CanMoveTo(s, tile) && tile.hasEvent && tile.eventType == Some(MushroomEvent)
    ensures ClickPending(s, tile).Some? ==> ClickPending(s, tile).value == PendingEvent(tile, MushroomEvent)
  {
  }

  /** After a successful move the target tile is discovered; danger and rest tiles lose their event. */
  lemma ClickedTileEffect(t: Tile, s: GameState, tile: Tile)
    requires CanMoveTo(s, tile)
    ensures var r := ClickedTile(t, Position(tile.x, tile.y), s, tile);
      r.discovered && r.biome == t.biome
      && (tile.hasEvent && ClearsEvent(tile) ==> !r.hasEvent && r.eventType.None?)
      && (!(tile.hasEvent && ClearsEvent(tile)) ==> r.hasEvent == t.hasEvent && r.eventType == t.eventType)
  {
  }

  /** A new expedition restores health and stamina and places the player on a fresh 10 x 10 map; it keeps everything else. */
  lemma {:induction false} NewGameOutcome(s: GameState, now: string)
    requires VitalsInRange(s.player)
    ensures var r := Run(s, NewGameActions(s), now);
      r.Next?
      && r.state.player == s.player.(health := s.player.maxHealth, stamina := s.player.maxStamina)
      && r.state.explorationMap == MapInfo(Position(5, 9), 10, 10)
      && r.state.(player := s.player, explorationMap := s.explorationMap) == s
      && (!IsGameOver(r.state) <==> s.player.maxHealth > 0)
  {
    var p := s.player;
    var s1 := s.(player := p.(health := p.maxHealth));
    var s2 := s1.(player := s1.player.(stamina := p.maxStamina));
    RunAppend(s, [UpdateHealth(p.maxHealth)], [UpdateStamina(p.maxStamina), GenerateNewMap(10, 10)], now);
    assert Run(s, [UpdateHealth(p.maxHealth)], now) == Next(s1);
    RunAppend(s1, [UpdateStamina(p.maxStamina)], [GenerateNewMap(10, 10)], now);
    assert Run(s1, [UpdateStamina(p.maxStamina)], now) == Next(s2);
  }

  // ---------------------------------------------------------------------------
  // The specimen dialog
  // ---------------------------------------------------------------------------

  /**
   * The screen's own generateMushroom(biome): the same rarity ladder, type pick and
   * value as the utility, but named "Wild <Type>" at once and without the display
   * name or true description.
   */
  function ExploreMushroom(b: Biome, rarityRoll: real, typeRoll: real, now: string): (m: Mushroom)
    requires 0.0 <= typeRoll < 1.0
    ensures m.name == "Wild " + Capitalize(TypeName(m.kind))
    ensures m.displayName.None? && m.realDescription.None? && !m.identified
  {
    var props := GetTerrainProperties(b);
    var rarity := if rarityRoll < 0.05 then Legendary else if rarityRoll < props.mushroomChance then Rare else Common;
    var kind := GetRandomMushroomForBiome(b, rarity, typeRoll);
    var native := kind in SpawnList(props, rarity);
    Mushroom(
      id := "mushroom-" + now,
      name := "Wild " + Capitalize(TypeName(kind)),
      displayName := None,
      kind := kind,
      rarity := rarity,
      biomes := [b],
      properties := [],
      baseValue := BaseValue(rarity, native),
      scientificName := "Unknown",
      description := "A " + RarityName(rarity) + " " + TypeName(kind) + " found in " + BiomeName(b) + " terrain" + NativeSuffix(native) + ".",
      realDescription := None,
      imageUrl := "",
      identified := false,
      color := RarityColor(rarity))
  }

  /** The two generators agree on everything the rules use, for the same draws. */
  lemma ExploreMatchesGenerator(b: Biome, rarityRoll: real, typeRoll: real, now: string)
    requires 0.0 <= typeRoll < 1.0
    ensures var e := ExploreMushroom(b, rarityRoll, typeRoll, now);
      var g := GenerateMushroom(b, rarityRoll, typeRoll, now);
      e.id == g.id && e.kind == g.kind && e.rarity == g.rarity && e.baseValue == g.baseValue
      && e.color == g.color && e.biomes == g.biomes && e.identified == g.identified
      && g.displayName == Some(e.name)
  {
  }

  /** `floor(draw * 3) + 1`, one more in the native habitat. */
  function CollectQuantity(draw: real, native: bool): (q: int)
    requires 0.0 <= draw < 1.0
    ensures 1 <= q <= 4
    ensures native ==> 2 <= q
    ensures !native ==> q <= 3
  {
    ScaledFloorInRange(draw, 3);
    var base := (draw * 3 as real).Floor + 1;
    if native then base + 1 else base
  }

  /** `floor(draw * 100) + 1`, plus 20 capped at 100 in the native habitat. */
  function CollectQuality(draw: real, native: bool): (q: int)
    requires 0.0 <= draw < 1.0
    ensures 1 <= q <= 100
    ensures native ==> 21 <= q
  {
    ScaledFloorInRange(draw, 100);
    var base := (draw * 100 as real).Floor + 1;
    if native then Min(100, base + 20) else base
  }

  /** The dialog's specimen and its biome bonus test. */
  function DialogMushroom(pending: PendingEvent, rarityRoll: real, typeRoll: real, now: string): Mushroom
    requires 0.0 <= typeRoll < 1.0
  {
    ExploreMushroom(pending.tile.biome, rarityRoll, typeRoll, now)
  }

  predicate DialogNative(pending: PendingEvent, m: Mushroom)
  {
    Spawnable(m.rarity) && m.kind in SpawnList(GetTerrainProperties(pending.tile.biome), m.rarity)
  }

  /** The dialog's handleCollect: COLLECT_MUSHROOM, then TRIGGER_EVENT on the pending tile. */
  function CollectActions(pending: PendingEvent, m: Mushroom, quantity: int, quality: int): seq<Action>
  {
    [CollectMushroom(m, quantity, quality), TriggerEvent(pending.tile.x, pending.tile.y)]
  }

  /** handleCollect with the specimen and bonuses the dialog computed from its draws. */
  function DialogActions(pending: PendingEvent, rarityRoll: real, typeRoll: real, quantityDraw: real, qualityDraw: real, now: string): seq<Action>
    requires 0.0 <= typeRoll < 1.0 && 0.0 <= quantityDraw < 1.0 && 0.0 <= qualityDraw < 1.0
  {
    var m := DialogMushroom(pending, rarityRoll, typeRoll, now);
    var native := DialogNative(pending, m);
    CollectActions(pending, m, CollectQuantity(quantityDraw, native), CollectQuality(qualityDraw, native))
  }

  /** The bonus always applies: the type was drawn from the biome's own list. */
  lemma DialogAlwaysNative(pending: PendingEvent, rarityRoll: real, typeRoll: real, quantityDraw: real, qualityDraw: real, now: string)
    requires 0.0 <= typeRoll < 1.0 && 0.0 <= quantityDraw < 1.0 && 0.0 <= qualityDraw < 1.0
    ensures DialogNative(pending, DialogMushroom(pending, rarityRoll, typeRoll, now))
    ensures var a := DialogActions(pending, rarityRoll, typeRoll, quantityDraw, qualityDraw, now)[0];
      a.CollectMushroom? && 2 <= a.quantity <= 4 && 21 <= a.quality <= 100
  {
  }

  /**
   * The dispatches of handleCollect. `crashed` reports a COLLECT_MUSHROOM that raises (a
   * crafted line reached before any match), after which nothing else happens.
   */
  method CollectAndClear(g: Game, pending: PendingEvent, m: Mushroom, quantity: int, quality: int, now: string)
    returns (crashed: bool)
    requires g.Valid()
    requires IsInBounds(pending.tile.x, pending.tile.y, g.state.explorationMap.width, g.state.explorationMap.height)
    modifies g, g.tiles
    ensures g.Valid() && g.tiles == old(g.tiles)
    ensures var r := Run(old(g.state), CollectActions(pending, m, quantity, quality), now);
      (crashed <==> r.Throws?) && (!crashed ==> r == Next(g.state))
    ensures crashed ==> g.state == old(g.state) && unchanged(g.tiles)
    ensures !crashed ==> forall y, x :: 0 <= y < g.tiles.Length0 && 0 <= x < g.tiles.Length1 ==>
      g.tiles[y, x] == if x == pending.tile.x && y == pending.tile.y then ClearedTile(old(g.tiles[y, x])) else old(g.tiles[y, x])
  {
    ghost var s0 := g.state;
    var collect := CollectMushroom(m, quantity, quality);
    var trigger := TriggerEvent(pending.tile.x, pending.tile.y);
    assert CollectActions(pending, m, quantity, quality) == [collect] + [trigger];
    crashed := g.DispatchValue(collect, now);
    RunSnoc(s0, [], collect, now);
    RunAppend(s0, [collect], [trigger], now);
    if crashed {
      return;
    }
    ghost var s1 := g.state;
    var thrown := g.DispatchTrigger(trigger, now);
    RunSnoc(s1, [], trigger, now);
  }

  /** The dialog's handleCollect, its specimen and bonuses drawn from the given rolls. */
  method CollectPending(g: Game, pending: PendingEvent, rarityRoll: real, typeRoll: real, quantityDraw: real, qualityDraw: real, now: string)
    returns (crashed: bool)
    requires g.Valid()
    requires 0.0 <= typeRoll < 1.0 && 0.0 <= quantityDraw < 1.0 && 0.0 <= qualityDraw < 1.0
    requires IsInBounds(pending.tile.x, pending.tile.y, g.state.explorationMap.width, g.state.explorationMap.height)
    modifies g, g.tiles
    ensures g.Valid() && g.tiles == old(g.tiles)
    ensures var r := Run(old(g.state), DialogActions(pending, rarityRoll, typeRoll, quantityDraw, qualityDraw, now), now);
      (crashed <==> r.Throws?) && (!crashed ==> r == Next(g.state))
    ensures crashed ==> g.state == old(g.state) && unchanged(g.tiles)
    ensures !crashed ==> forall y, x :: 0 <= y < g.tiles.Length0 && 0 <= x < g.tiles.Length1 ==>
      g.tiles[y, x] == if x == pending.tile.x && y == pending.tile.y then ClearedTile(old(g.tiles[y, x])) else old(g.tiles[y, x])
  {
    var mushroom := DialogMushroom(pending, rarityRoll, typeRoll, now);
    var native := DialogNative(pending, mushroom);
    crashed := CollectAndClear(g, pending, mushroom, CollectQuantity(quantityDraw, native), CollectQuality(qualityDraw, native), now);
  }

  /** With only collected lines in the inventory, handleCollect adds its quantity and changes nothing else but the inventory. */
  lemma CollectActionsTotal(s: GameState, pending: PendingEvent, m: Mushroom, quantity: int, quality: int, now: string)
    requires IsInBounds(pending.tile.x, pending.tile.y, s.explorationMap.width, s.explorationMap.height)
    requires forall k :: 0 <= k < |s.inventory| ==> s.inventory[k].mushroom.Some?
    ensures var r := Run(s, CollectActions(pending, m, quantity, quality), now);
      r.Next? && Total(r.state.inventory) == Total(s.inventory) + quantity
      && r.state.(inventory := s.inventory) == s
  {
    var a := CollectMushroom(m, quantity, quality);
    var t := TriggerEvent(pending.tile.x, pending.tile.y);
    CollectedLinesNeverRaise(s.inventory, m.id, quality);
    CollectEffect(s.inventory, m, quantity, quality, now);
    var s1 := Apply(s, a, now);
    assert CollectActions(pending, m, quantity, quality) == [a] + [t];
    RunAppend(s, [a], [t], now);
    assert Run(s, [a], now) == Next(s1);
    assert Run(s1, [t], now) == Next(s1);
  }

  /** From the dialog that means 2 to 4 more specimens in total. */
  lemma DialogCollectTotal(s: GameState, pending: PendingEvent, rarityRoll: real, typeRoll: real, quantityDraw: real, qualityDraw: real, now: string)
    requires 0.0 <= typeRoll < 1.0 && 0.0 <= quantityDraw < 1.0 && 0.0 <= qualityDraw < 1.0
    requires IsInBounds(pending.tile.x, pending.tile.y, s.explorationMap.width, s.explorationMap.height)
    requires forall k :: 0 <= k < |s.inventory| ==> s.inventory[k].mushroom.Some?
    ensures var r := Run(s, DialogActions(pending, rarityRoll, typeRoll, quantityDraw, qualityDraw, now), now);
      r.Next? && Total(s.inventory) + 2 <= Total(r.state.inventory) <= Total(s.inventory) + 4
  {
    var m := DialogMushroom(pending, rarityRoll, typeRoll, now);
    var native := DialogNative(pending, m);
    var q := CollectQuantity(quantityDraw, native);
    DialogAlwaysNative(pending, rarityRoll, typeRoll, quantityDraw, qualityDraw, now);
    CollectActionsTotal(s, pending, m, q, CollectQuality(qualityDraw, native), now);
  }
}
