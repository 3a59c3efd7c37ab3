// The rest dialog component (src/components/ui/RestModal.tsx): resting grants
// stamina and health, clears the tile and ends the day.
module RestModal {
  import opened Wrappers
  import opened Types
  import opened MapGenerator
  import opened GameContext
  import opened ExplorationPhase

  /** The 6 AM reset that ends a rest. */
  const SixAm := TimeIncrement(Some(6), Some(0), Some(true))

  /**
   * handleRest's dispatches; `maxStamina` and `stamina` are the component's props, not
   * read from the state.
   */
  function RestActions(pending: PendingEvent, maxStamina: int, stamina: int): seq<Action>
  {
    [UpdateStamina(Min(50, maxStamina - stamina)), UpdateHealth(10),
     TriggerEvent(pending.tile.x, pending.tile.y), AdvanceDay, AdvanceTime(SixAm)]
  }

  /**
   * Resting heals 10 (capped), moves to the next day and, since ADVANCE_DAY refills
   * stamina, ends at full stamina whatever the props said.
   */
  lemma RestOutcome(s: GameState, pending: PendingEvent, maxStamina: int, stamina: int, now: string)
    requires IsInBounds(pending.tile.x, pending.tile.y, s.explorationMap.width, s.explorationMap.height)
    ensures var p := s.player;
      Run(s, RestActions(pending, maxStamina, stamina), now) ==
      Next(s.(currentDay := s.currentDay + 1,
              player := p.(stamina := p.maxStamina, health := ClampedAdd(p.health, 10, p.maxHealth))))
  {
    var a0 := UpdateStamina(Min(50, maxStamina - stamina));
    var a2 := TriggerEvent(pending.tile.x, pending.tile.y);
    var s1 := Apply(s, a0, now);
    var s2 := Apply(s1, UpdateHealth(10), now);
    var s4 := Apply(s2, AdvanceDay, now);
    assert RestActions(pending, maxStamina, stamina) == [a0] + ([UpdateHealth(10)] + ([a2] + ([AdvanceDay] + [AdvanceTime(SixAm)])));
    RunCons(s, a0, [UpdateHealth(10)] + ([a2] + ([AdvanceDay] + [AdvanceTime(SixAm)])), now);
    RunCons(s1, UpdateHealth(10), [a2] + ([AdvanceDay] + [AdvanceTime(SixAm)]), now);
    RunCons(s2, a2, [AdvanceDay] + [AdvanceTime(SixAm)], now);
    RunCons(s2, AdvanceDay, [AdvanceTime(SixAm)], now);
    RunCons(s4, AdvanceTime(SixAm), [], now);
  }

  /** The grant, health and clearing dispatches of handleRest. */
  method RestAndClear(g: Game, pending: PendingEvent, maxStamina: int, stamina: int, now: string)
    requires g.Valid()
    requires IsInBounds(pending.tile.x, pending.tile.y, g.state.explorationMap.width, g.state.explorationMap.height)
    modifies g, g.tiles
    ensures g.Valid() && g.tiles == old(g.tiles)
    ensures Run(old(g.state), RestActions(pending, maxStamina, stamina)[..3], now) == Next(g.state)
    ensures forall y, x :: 0 <= y < g.tiles.Length0 && 0 <= x < g.tiles.Length1 ==>
      g.tiles[y, x] == if x == pending.tile.x && y == pending.tile.y then ClearedTile(old(g.tiles[y, x])) else old(g.tiles[y, x])
  {
    ghost var s0 := g.state;
    var grant := UpdateStamina(Min(50, maxStamina - stamina));
    var heal := UpdateHealth(10);
    var clear := TriggerEvent(pending.tile.x, pending.tile.y);
    assert RestActions(pending, maxStamina, stamina)[..3] == [grant] + ([heal] + [clear]);
    var thrown := g.DispatchValue(grant, now);
    ghost var s1 := g.state;
    RunCons(s0, grant, [heal] + [clear], now);
    thrown := g.DispatchValue(heal, now);
    ghost var s2 := g.state;
    RunCons(s1, heal, [clear], now);
    thrown := g.DispatchTrigger(clear, now);
    RunCons(s2, clear, [], now);
  }

  /** handleRest for a pending event, with the props the dialog was given. */
  method HandleRest(g: Game, pending: PendingEvent, maxStamina: int, stamina: int, now: string)
    requires g.Valid()
    requires IsInBounds(pending.tile.x, pending.tile.y, g.state.explorationMap.width, g.state.explorationMap.height)
    modifies g, g.tiles
    ensures g.Valid() && g.tiles == old(g.tiles)
    ensures Run(old(g.state), RestActions(pending, maxStamina, stamina), now) == Next(g.state)
    ensures forall y, x :: 0 <= y < g.tiles.Length0 && 0 <= x < g.tiles.Length1 ==>
      g.tiles[y, x] == if x == pending.tile.x && y == pending.tile.y then ClearedTile(old(g.tiles[y, x])) else old(g.tiles[y, x])
  {
    ghost var s0 := g.state;
    var acts := RestActions(pending, maxStamina, stamina);
    RestAndClear(g, pending, maxStamina, stamina, now);
    ghost var s3 := g.state;
    var thrown := g.DispatchValue(AdvanceDay, now);
    ghost var s4 := g.state;
    thrown := g.DispatchValue(AdvanceTime(SixAm), now);
    assert acts == acts[..3] + ([AdvanceDay] + [AdvanceTime(SixAm)]);
    RunAppend(s0, acts[..3], [AdvanceDay] + [AdvanceTime(SixAm)], now);
    RunCons(s3, AdvanceDay, [AdvanceTime(SixAm)], now);
    RunCons(s4, AdvanceTime(SixAm), [], now);
  }
}
