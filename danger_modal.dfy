// The danger dialog component (src/components/ui/DangerModal.tsx): one of four
// dangers, each with its own damage range, applied on "continue".
module DangerModal {
  import opened Wrappers
  import opened Types
  import opened TerrainUtils
  import opened MapGenerator
  import opened GameContext
  import opened ExplorationPhase

  datatype Danger = Danger(name: string, description: string, damage: int, image: string)

  /** `Math.floor(draw * span) + low`. */
  function Damage(draw: real, span: nat, low: int): (d: int)
    requires 0.0 <= draw < 1.0 && span > 0
    ensures low <= d < low + span
  {
    ScaledFloorInRange(draw, span);
    (draw * span as real).Floor + low
  }

  /** The four dangers, each damage drawn from its own draw. */
  function DangerTypes(animal: real, trap: real, plants: real, ground: real): (r: seq<Danger>)
    requires 0.0 <= animal < 1.0 && 0.0 <= trap < 1.0 && 0.0 <= plants < 1.0 && 0.0 <= ground < 1.0
    ensures |r| == 4
    ensures 15 <= r[0].damage <= 24 && 10 <= r[1].damage <= 24
    ensures 10 <= r[2].damage <= 19 && 5 <= r[3].damage <= 19
  {
    [Danger("Wild Animal", "A fierce creature attacks from the shadows!", Damage(animal, 10, 15), "🐺"),
     Danger("Hidden Trap", "You stumble into a concealed hunting trap!", Damage(trap, 15, 10), "⚔️"),
     Danger("Poisonous Plants", "You brush against some toxic vegetation!", Damage(plants, 10, 10), "🌿"),
     Danger("Treacherous Ground", "The ground gives way beneath your feet!", Damage(ground, 15, 5), "⚡")]
  }

  // The dialog's danger is `PickEntry(DangerTypes(...), pick)`, the entry at
  // `Math.floor(pick * dangerTypes.length)`.

  /** Whatever the draws, a danger deals between 5 and 24 damage. */
  lemma DamageBounds(animal: real, trap: real, plants: real, ground: real, pick: real)
    requires 0.0 <= animal < 1.0 && 0.0 <= trap < 1.0 && 0.0 <= plants < 1.0 && 0.0 <= ground < 1.0
    requires 0.0 <= pick < 1.0
    ensures 5 <= PickEntry(DangerTypes(animal, trap, plants, ground), pick).damage <= 24
  {
    var ds := DangerTypes(animal, trap, plants, ground);
    var d := PickEntry(ds, pick);
    assert exists k :: 0 <= k < 4 && ds[k] == d;
  }

  /** Every danger can be picked: the quarter of the pick's range it lands in. */
  lemma PickQuarters(dangers: seq<Danger>, pick: real)
    requires |dangers| == 4 && 0.0 <= pick < 1.0
    ensures pick < 0.25 ==> PickEntry(dangers, pick) == dangers[0]
    ensures 0.25 <= pick < 0.5 ==> PickEntry(dangers, pick) == dangers[1]
    ensures 0.5 <= pick < 0.75 ==> PickEntry(dangers, pick) == dangers[2]
    ensures 0.75 <= pick ==> PickEntry(dangers, pick) == dangers[3]
  {
    var f := (pick * 4.0).Floor;
    assert f as real <= pick * 4.0 < f as real + 1.0;
  }

  /** handleContinue: the danger's damage, then TRIGGER_EVENT on the pending tile. */
  function ContinueActions(pending: PendingEvent, danger: Danger): seq<Action>
  {
    [UpdateHealth(-danger.damage), TriggerEvent(pending.tile.x, pending.tile.y)]
  }

  /** Continuing takes the damage off health, floored at zero, and changes nothing else. */
  lemma ContinueOutcome(s: GameState, pending: PendingEvent, danger: Danger, now: string)
    requires VitalsInRange(s.player) && danger.damage >= 0
    requires IsInBounds(pending.tile.x, pending.tile.y, s.explorationMap.width, s.explorationMap.height)
    ensures Run(s, ContinueActions(pending, danger), now) ==
      Next(s.(player := s.player.(health := Max(0, s.player.health - danger.damage))))
    ensures danger.damage >= s.player.health ==> IsGameOver(Run(s, ContinueActions(pending, danger), now).state)
  {
    var hurt := UpdateHealth(-danger.damage);
    var t := TriggerEvent(pending.tile.x, pending.tile.y);
    var s1 := Apply(s, hurt, now);
    RunCons(s, hurt, [t], now);
    RunCons(s1, t, [], now);
  }

  /** handleContinue for the danger the dialog drew. */
  method HandleContinue(g: Game, pending: PendingEvent, danger: Danger, now: string)
    requires g.Valid()
    requires IsInBounds(pending.tile.x, pending.tile.y, g.state.explorationMap.width, g.state.explorationMap.height)
    modifies g, g.tiles
    ensures g.Valid() && g.tiles == old(g.tiles)
    ensures Run(old(g.state), ContinueActions(pending, danger), now) == Next(g.state)
    ensures forall y, x :: 0 <= y < g.tiles.Length0 && 0 <= x < g.tiles.Length1 ==>
      g.tiles[y, x] == if x == pending.tile.x && y == pending.tile.y then ClearedTile(old(g.tiles[y, x])) else old(g.tiles[y, x])
  {
    ghost var s0 := g.state;
    var hurt := UpdateHealth(-danger.damage);
    var t := TriggerEvent(pending.tile.x, pending.tile.y);
    var thrown := g.DispatchValue(hurt, now);
    ghost var s1 := g.state;
    RunCons(s0, hurt, [t], now);
    thrown := g.DispatchTrigger(t, now);
    RunCons(s1, t, [], now);
  }
}
