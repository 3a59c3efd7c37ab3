// The game state machine (src/context/GameContext.tsx): the action union, the
// reducer and the initial state. Every case but two returns a spread copy, so the
// value part of the state is reduced by the pure function Reduce; the tile grid is
// an array that MOVE_PLAYER and TRIGGER_EVENT update in place.
module GameContext {
  import opened Wrappers
  import opened Types
  import opened TerrainUtils
  import opened MapGenerator

  /** The reducer's actions, plus ADVANCE_TIME, which the screens dispatch but the union lacks. */
  datatype Action =
    | SetPlayerName(name: string)
    | SetShopName(name: string)
    | ChangeGamePhase(phase: GamePhase)
    | DiscoverArea(area: Area)
    | SetCurrentArea(current: Option<Area>)
    | CollectMushroom(mushroom: Mushroom, quantity: int, quality: int)
    | IdentifyMushroom(specimen: Mushroom)
    | SellMushroom(itemId: string, price: int, quantity: int)
    | CraftProduct(ingredients: seq<Item>, result: Item)
    | AdvanceDay
    | UpdateStamina(delta: int)
    | UpdateHealth(delta: int)
    | UpdateCash(delta: int)
    | UpdateReputation(delta: int)
    | MovePlayer(x: int, y: int)
    | GenerateNewMap(width: int, height: int)
    | TriggerEvent(x: int, y: int)
    | UpdateMapTiles(tiles: array2<Tile>)
    | AdvanceTime(time: TimeIncrement)

  /** The draws passed with actions other than GENERATE_NEW_MAP, which alone consumes them. */
  const NoDraws := MapDraws([], [])

  /** The next value state, or the TypeError the reducer raises (the state is then not replaced). */
  datatype Outcome = Next(state: GameState) | Throws

  function Max(a: int, b: int): int { if a >= b then a else b }
  function Min(a: int, b: int): int { if a <= b then a else b }

  // ---------------------------------------------------------------------------
  // Vitals and cash
  // ---------------------------------------------------------------------------

  /** `Math.max(0, Math.min(max, value + delta))`. */
  function ClampedAdd(value: int, delta: int, max: int): (r: int)
    ensures max >= 0 ==> 0 <= r <= max
    ensures 0 <= value + delta <= max ==> r == value + delta
    ensures value + delta < 0 ==> r == 0
    ensures max >= 0 && value + delta > max ==> r == max
  {
    Max(0, Min(max, value + delta))
  }

  predicate VitalsInRange(p: Player)
  {
    0 <= p.health <= p.maxHealth && 0 <= p.stamina <= p.maxStamina
  }

  // ---------------------------------------------------------------------------
  // Inventory
  // ---------------------------------------------------------------------------

  /** The total held quantity. */
  function Total(inv: seq<Item>): int
  {
    if inv == [] then 0 else inv[0].quantity + Total(inv[1..])
  }

  lemma {:induction false} TotalAppend(a: seq<Item>, b: seq<Item>)
    ensures Total(a + b) == Total(a) + Total(b)
  {
    if a == [] {
      assert a + b == b;
    } else {
      assert (a + b)[1..] == a[1..] + b;
      TotalAppend(a[1..], b);
    }
  }

  lemma TotalSplit(inv: seq<Item>, i: nat)
    requires i < |inv|
    ensures Total(inv) == Total(inv[..i]) + inv[i].quantity + Total(inv[i + 1..])
  {
    assert inv == inv[..i] + ([inv[i]] + inv[i + 1..]);
    TotalAppend(inv[..i], [inv[i]] + inv[i + 1..]);
    assert ([inv[i]] + inv[i + 1..])[1..] == inv[i + 1..];
  }

  /** Replacing one line's quantity changes the total by the difference. */
  lemma TotalUpdate(inv: seq<Item>, i: nat, q: int)
    requires i < |inv|
    ensures Total(inv[i := inv[i].(quantity := q)]) == Total(inv) - inv[i].quantity + q
  {
    var u := inv[i := inv[i].(quantity := q)];
    TotalSplit(inv, i);
    TotalSplit(u, i);
    assert u[..i] == inv[..i] && u[i + 1..] == inv[i + 1..];
  }

  /** `filter((_, index) => index !== i)` and `splice(i, 1)`. */
  function RemoveAt(inv: seq<Item>, i: nat): (r: seq<Item>)
    requires i < |inv|
    ensures |r| == |inv| - 1
    ensures forall k :: 0 <= k < i ==> r[k] == inv[k]
    ensures forall k :: i <= k < |r| ==> r[k] == inv[k + 1]
  {
    inv[..i] + inv[i + 1..]
  }

  lemma TotalRemoveAt(inv: seq<Item>, i: nat)
    requires i < |inv|
    ensures Total(RemoveAt(inv, i)) == Total(inv) - inv[i].quantity
  {
    TotalSplit(inv, i);
    TotalAppend(inv[..i], inv[i + 1..]);
  }

  /** `findIndex(item => item.id === id)`. */
  function FindById(inv: seq<Item>, id: string): (r: Option<nat>)
    ensures r.Some? ==>
      r.value < |inv| && inv[r.value].id == id && forall k :: 0 <= k < r.value ==> inv[k].id != id
    ensures r.None? ==> forall k :: 0 <= k < |inv| ==> inv[k].id != id
  {
    if inv == [] then None
    else if inv[0].id == id then Some(0)
    else match FindById(inv[1..], id)
      case None => None
      case Some(k) => Some(k + 1)
  }

  /** The COLLECT_MUSHROOM test: same mushroom id and same quality. */
  predicate CollectMatch(item: Item, mushroomId: string, quality: int)
    requires item.mushroom.Some?
  {
    item.mushroom.value.id == mushroomId && item.quality == quality
  }

  /** Every line before `j` has a mushroom and does not match, so the scan reaches `j`. */
  predicate RaisesAt(inv: seq<Item>, j: nat, mushroomId: string, quality: int)
    requires j <= |inv|
  {
    forall k :: 0 <= k < j ==> inv[k].mushroom.Some? && !CollectMatch(inv[k], mushroomId, quality)
  }

  /** Past a first line that has a mushroom and does not match, the scan continues on the tail. */
  lemma RaisesAtShift(inv: seq<Item>, mushroomId: string, quality: int)
    requires |inv| > 0 && inv[0].mushroom.Some? && !CollectMatch(inv[0], mushroomId, quality)
    ensures forall j :: 1 <= j <= |inv| ==>
      (RaisesAt(inv, j, mushroomId, quality) <==> RaisesAt(inv[1..], j - 1, mushroomId, quality))
  {
    forall j | 1 <= j <= |inv|
      ensures RaisesAt(inv, j, mushroomId, quality) <==> RaisesAt(inv[1..], j - 1, mushroomId, quality)
    {
      assert forall k :: 1 <= k < j ==> inv[k] == inv[1..][k - 1];
      if RaisesAt(inv[1..], j - 1, mushroomId, quality) {
        forall k | 0 <= k < j
          ensures inv[k].mushroom.Some? && !CollectMatch(inv[k], mushroomId, quality)
        {
          if k > 0 {
            assert inv[k] == inv[1..][k - 1];
          }
        }
      }
    }
  }

  /** The result of COLLECT_MUSHROOM's search. */
  datatype Lookup = Found(index: nat) | Missing | Raises

  /**
   * `findIndex(item => item.mushroom.id === id && item.quality === quality)`: the scan
   * raises a TypeError on a line without a mushroom (a crafted line) that it reaches.
   */
  function FindCollectLine(inv: seq<Item>, mushroomId: string, quality: int): (r: Lookup)
    ensures r.Found? ==> r.index < |inv| && inv[r.index].mushroom.Some? && CollectMatch(inv[r.index], mushroomId, quality)
    ensures r.Found? || r.Missing? ==>
      forall k :: 0 <= k < (if r.Found? then r.index else |inv|) ==>
        inv[k].mushroom.Some? && !CollectMatch(inv[k], mushroomId, quality)
    ensures r.Raises? <==>
      exists j :: 0 <= j < |inv| && inv[j].mushroom.None? && RaisesAt(inv, j, mushroomId, quality)
  {
    if inv == [] then Missing
    else if inv[0].mushroom.None? then Raises
    else if CollectMatch(inv[0], mushroomId, quality) then Found(0)
    else
      var tail := inv[1..];
      var rest := FindCollectLine(tail, mushroomId, quality);
      assert forall k :: 1 <= k < |inv| ==> inv[k] == tail[k - 1];
      RaisesAtShift(inv, mushroomId, quality);
      if rest.Raises? then
        var j :| 0 <= j < |tail| && tail[j].mushroom.None? && RaisesAt(tail, j, mushroomId, quality);
        assert inv[j + 1].mushroom.None? && RaisesAt(inv, j + 1, mushroomId, quality);
        Raises
      else
        match rest
        case Found(k) => Found(k + 1)
        case Missing => Missing
  }

  /** The line COLLECT_MUSHROOM appends: id `<mushroom id>-<now>`, price 0. */
  function NewLine(m: Mushroom, quantity: int, quality: int, now: string): Item
  {
    Item(m.id + "-" + now, Some(m), None, quantity, quality, 0)
  }

  /** COLLECT_MUSHROOM on the inventory; None when the search raises. */
  function Collect(inv: seq<Item>, m: Mushroom, quantity: int, quality: int, now: string): Option<seq<Item>>
  {
    match FindCollectLine(inv, m.id, quality)
    case Found(i) => Some(inv[i := inv[i].(quantity := inv[i].quantity + quantity)])
    case Missing => Some(inv + [NewLine(m, quantity, quality, now)])
    case Raises => None
  }

  /** The effect of SELL_MUSHROOM on a line that was found. */
  function SellLine(inv: seq<Item>, i: nat, quantity: int): seq<Item>
    requires i < |inv|
  {
    if inv[i].quantity <= quantity then RemoveAt(inv, i)
    else inv[i := inv[i].(quantity := inv[i].quantity - quantity)]
  }

  /** One CRAFT_PRODUCT step: the ingredient's line, found by id, is removed or decremented. */
  function ConsumeOne(inv: seq<Item>, ingredient: Item): seq<Item>
  {
    match FindById(inv, ingredient.id)
    case None => inv
    case Some(i) => SellLine(inv, i, ingredient.quantity)
  }

  /** The CRAFT_PRODUCT loop's effect after the given ingredients, in order. */
  function ConsumeAll(inv: seq<Item>, ingredients: seq<Item>): seq<Item>
    decreases |ingredients|
  {
    if ingredients == [] then inv
    else ConsumeOne(ConsumeAll(inv, ingredients[..|ingredients| - 1]), ingredients[|ingredients| - 1])
  }

  /** The CRAFT_PRODUCT loop: consume every ingredient in order, then append the result. */
  method CraftInventory(inventory: seq<Item>, ingredients: seq<Item>, result: Item) returns (updated: seq<Item>)
    ensures updated == ConsumeAll(inventory, ingredients) + [result]
    ensures |updated| > 0 && updated[|updated| - 1] == result
  {
    updated := inventory;
    for i := 0 to |ingredients|
      invariant updated == ConsumeAll(inventory, ingredients[..i])
    {
      assert ingredients[..i + 1][..i] == ingredients[..i];
      var ingredient := ingredients[i];
      var itemIndex := FindById(updated, ingredient.id);
      if itemIndex.Some? {
        var k := itemIndex.value;
        if updated[k].quantity <= ingredient.quantity {
          updated := updated[..k] + updated[k + 1..];
        } else {
          updated := updated[k := updated[k].(quantity := updated[k].quantity - ingredient.quantity)];
        }
      }
    }
    assert ingredients[..|ingredients|] == ingredients;
    updated := updated + [result];
  }

  /** `some(m => m.id === id)` over the known specimens. */
  predicate KnowsMushroom(known: seq<Mushroom>, id: string)
  {
    exists k :: 0 <= k < |known| && known[k].id == id
  }

  predicate KnowsArea(areas: seq<Area>, id: string)
  {
    exists k :: 0 <= k < |areas| && areas[k].id == id
  }

  /** IDENTIFY_MUSHROOM on the registry: append an identified copy when the id is new. */
  function WithKnown(known: seq<Mushroom>, m: Mushroom): seq<Mushroom>
  {
    if !KnowsMushroom(known, m.id) then known + [m.(identified := true)] else known
  }

  /** DISCOVER_AREA on the registry: append the area when its id is new. */
  function WithArea(areas: seq<Area>, a: Area): seq<Area>
  {
    if !KnowsArea(areas, a.id) then areas + [a] else areas
  }

  // ---------------------------------------------------------------------------
  // The reducer on the value part of the state
  // ---------------------------------------------------------------------------

  /** The value part of gameReducer; the tile grid's updates are in Game.Dispatch. */
  function Reduce(s: GameState, a: Action, now: string): Outcome
  {
    var p := s.player;
    var m := s.explorationMap;
    match a
    case MovePlayer(x, y) =>
      if IsInBounds(x, y, m.width, m.height)
      then Next(s.(explorationMap := m.(playerPosition := Position(x, y))))
      else Throws
    case GenerateNewMap(w, h) =>
      Next(s.(explorationMap := MapInfo(StartPosition(w, h), w, h)))
    case TriggerEvent(x, y) =>
      if 0 <= y < m.height then Next(s) else Throws
    case UpdateHealth(d) =>
      Next(s.(player := p.(health := ClampedAdd(p.health, d, p.maxHealth))))
    case SetPlayerName(n) =>
      Next(s.(player := p.(name := n)))
    case SetShopName(n) =>
      Next(s.(shop := s.shop.(name := n)))
    case ChangeGamePhase(ph) =>
      Next(s.(gamePhase := ph))
    case DiscoverArea(area) =>
      Next(s.(discoveredAreas := WithArea(s.discoveredAreas, area)))
    case SetCurrentArea(c) =>
      Next(s.(currentArea := c))
    case CollectMushroom(mushroom, quantity, quality) =>
      (match Collect(s.inventory, mushroom, quantity, quality, now)
       case None => Throws
       case Some(inv) => Next(s.(inventory := inv)))
    case IdentifyMushroom(specimen) =>
      Next(s.(knownMushrooms := WithKnown(s.knownMushrooms, specimen)))
    case SellMushroom(itemId, price, quantity) =>
      (match FindById(s.inventory, itemId)
       case None => Next(s)
       case Some(i) =>
         Next(s.(inventory := SellLine(s.inventory, i, quantity),
                 shop := s.shop.(cash := s.shop.cash + price * quantity))))
    case CraftProduct(ingredients, result) =>
      Next(s.(inventory := ConsumeAll(s.inventory, ingredients) + [result]))
    case AdvanceDay =>
      Next(s.(currentDay := s.currentDay + 1, player := p.(stamina := p.maxStamina)))
    case UpdateCash(d) =>
      Next(s.(shop := s.shop.(cash := Max(0, s.shop.cash + d))))
    case UpdateReputation(d) =>
      Next(s.(shop := s.shop.(reputation := s.shop.reputation + d)))
    case UpdateStamina(d) =>
      Next(s.(player := p.(stamina := ClampedAdd(p.stamina, d, p.maxStamina))))
    case UpdateMapTiles(_) =>
      Next(s)
    case AdvanceTime(_) =>
      Next(s)
  }

  /** The state after an action that does not raise (a raising one leaves the state as it was). */
  function Apply(s: GameState, a: Action, now: string): GameState
  {
    match Reduce(s, a, now)
    case Next(t) => t
    case Throws => s
  }

  /**
   * A handler's dispatches in order. A reducer that raises surfaces as an error while
   * rendering, so the run stops there and reports it.
   */
  function Run(s: GameState, actions: seq<Action>, now: string): Outcome
    decreases |actions|
  {
    if actions == [] then Next(s)
    else match Reduce(s, actions[0], now)
      case Throws => Throws
      case Next(t) => Run(t, actions[1..], now)
  }

  /** Running a sequence is running its first part, then the rest from where it left off. */
  lemma {:induction false} RunAppend(s: GameState, first: seq<Action>, rest: seq<Action>, now: string)
    ensures Run(s, first + rest, now) ==
      match Run(s, first, now)
      case Throws => Throws
      case Next(t) => Run(t, rest, now)
    decreases |first|
  {
    if first == [] {
      assert first + rest == rest;
    } else {
      assert (first + rest)[0] == first[0];
      assert (first + rest)[1..] == first[1..] + rest;
      match Reduce(s, first[0], now)
      case Throws =>
      case Next(t) => RunAppend(t, first[1..], rest, now);
    }
  }

  /** Running a sequence is one dispatch, then the rest. */
  lemma RunCons(s: GameState, a: Action, rest: seq<Action>, now: string)
    ensures Run(s, [a] + rest, now) ==
      match Reduce(s, a, now)
      case Throws => Throws
      case Next(t) => Run(t, rest, now)
  {
    assert ([a] + rest)[0] == a;
    assert ([a] + rest)[1..] == rest;
  }

  /** One more dispatch after a run. */
  lemma RunSnoc(s: GameState, done: seq<Action>, a: Action, now: string)
    ensures Run(s, done + [a], now) ==
      match Run(s, done, now)
      case Throws => Throws
      case Next(t) => Reduce(t, a, now)
  {
    RunAppend(s, done, [a], now);
    assert [a][1..] == [];
  }

  /** A delta of health or stamina keeps the value in [0, max]; nothing else changes. */
  lemma VitalsClamped(s: GameState, d: int, now: string)
    requires s.player.maxHealth >= 0 && s.player.maxStamina >= 0
    ensures var h := Reduce(s, UpdateHealth(d), now);
      h.Next? && 0 <= h.state.player.health <= s.player.maxHealth
      && h.state.(player := s.player) == s && h.state.player.(health := s.player.health) == s.player
    ensures var t := Reduce(s, UpdateStamina(d), now);
      t.Next? && 0 <= t.state.player.stamina <= s.player.maxStamina
      && t.state.(player := s.player) == s && t.state.player.(stamina := s.player.stamina) == s.player
  {
  }

  /** UPDATE_CASH never leaves cash negative; UPDATE_REPUTATION is plain addition. */
  lemma CashAndReputation(s: GameState, d: int, now: string)
    ensures Reduce(s, UpdateCash(d), now).state.shop.cash >= 0
    ensures s.shop.cash + d >= 0 ==> Reduce(s, UpdateCash(d), now).state.shop.cash == s.shop.cash + d
    ensures Reduce(s, UpdateReputation(d), now).state.shop.reputation == s.shop.reputation + d
  {
  }

  /** ADVANCE_DAY moves to the next day and restores stamina in full. */
  lemma AdvanceDayEffect(s: GameState, now: string)
    ensures var t := Reduce(s, AdvanceDay, now).state;
      t.currentDay == s.currentDay + 1 && t.player.stamina == s.player.maxStamina
      && t.player.health == s.player.health && t.inventory == s.inventory
  {
  }

  /** Every action keeps health and stamina within their maxima. */
  lemma ReducePreservesVitals(s: GameState, a: Action, now: string)
    requires VitalsInRange(s.player)
    ensures VitalsInRange(Apply(s, a, now).player)
    ensures Apply(s, a, now).player.maxHealth == s.player.maxHealth
    ensures Apply(s, a, now).player.maxStamina == s.player.maxStamina
  {
  }

  /**
   * Characterises the MOVE_PLAYER branch of `Reduce`: it sets the position to any
   * in-bounds target, adjacent or not, changes nothing else, and raises for a target
   * off the grid. The grid side is `MovedTile` and `Game.DispatchMove`.
   */
  lemma MoveSetsPosition(s: GameState, x: int, y: int, now: string)
    ensures Reduce(s, MovePlayer(x, y), now) ==
      if IsInBounds(x, y, s.explorationMap.width, s.explorationMap.height)
      then Next(s.(explorationMap := s.explorationMap.(playerPosition := Position(x, y))))
      else Throws
  {
  }

  /**
   * Characterises the TRIGGER_EVENT branch of `Reduce`: it leaves the value state alone
   * and raises for a row off the grid. The grid side is `ClearedTile` and `Game.DispatchTrigger`.
   */
  lemma TriggerKeepsState(s: GameState, x: int, y: int, now: string)
    ensures Reduce(s, TriggerEvent(x, y), now) ==
      if 0 <= y < s.explorationMap.height then Next(s) else Throws
  {
  }

  /**
   * Characterises the GENERATE_NEW_MAP branch of `Reduce`: it replaces the map record only,
   * with the player at the new start. The grid side is `MapGenerator.GenerateMap`.
   */
  lemma GenerateSetsMap(s: GameState, w: int, h: int, now: string)
    ensures Reduce(s, GenerateNewMap(w, h), now) == Next(s.(explorationMap := MapInfo(StartPosition(w, h), w, h)))
  {
  }

  /**
   * Characterises the CRAFT_PRODUCT branch of `Reduce`: it changes the inventory only.
   * The loop itself is `CraftInventory`, and `ConsumeAllTotal` gives its effect on the total.
   */
  lemma CraftSetsInventory(s: GameState, ingredients: seq<Item>, result: Item, now: string)
    ensures Reduce(s, CraftProduct(ingredients, result), now) ==
      Next(s.(inventory := ConsumeAll(s.inventory, ingredients) + [result]))
  {
  }

  /** Actions the reducer has no case for (ADVANCE_TIME) return the state unchanged. */
  lemma UnhandledIsIdentity(s: GameState, t: TimeIncrement, now: string)
    ensures Reduce(s, AdvanceTime(t), now) == Next(s)
  {
  }

  /**
   * COLLECT_MUSHROOM merges into the first line with the same mushroom id and quality,
   * else appends a line with price 0; either way the total grows by the quantity.
   */
  lemma {:induction false} CollectEffect(inv: seq<Item>, m: Mushroom, quantity: int, quality: int, now: string)
    requires FindCollectLine(inv, m.id, quality) != Raises
    ensures var r := Collect(inv, m, quantity, quality, now);
      r.Some? && Total(r.value) == Total(inv) + quantity
    ensures var r := Collect(inv, m, quantity, quality, now).value;
      match FindCollectLine(inv, m.id, quality)
      case Found(i) =>
        |r| == |inv| && r[i] == inv[i].(quantity := inv[i].quantity + quantity)
        && forall k :: 0 <= k < |inv| && k != i ==> r[k] == inv[k]
      case Missing =>
        r == inv + [NewLine(m, quantity, quality, now)] && r[|inv|].price == 0
      case Raises => false
  {
    match FindCollectLine(inv, m.id, quality)
    case Found(i) =>
      TotalUpdate(inv, i, inv[i].quantity + quantity);
    case Missing =>
      TotalAppend(inv, [NewLine(m, quantity, quality, now)]);
      assert Total([NewLine(m, quantity, quality, now)]) == quantity;
  }

  /** An inventory of collected lines only never makes COLLECT_MUSHROOM raise. */
  lemma CollectedLinesNeverRaise(inv: seq<Item>, mushroomId: string, quality: int)
    requires forall k :: 0 <= k < |inv| ==> inv[k].mushroom.Some?
    ensures FindCollectLine(inv, mushroomId, quality) != Raises
  {
  }

  /** IDENTIFY_MUSHROOM appends an identified copy only when the id is new, and is idempotent. */
  lemma IdentifyEffect(s: GameState, m: Mushroom, now: string)
    ensures var t := Reduce(s, IdentifyMushroom(m), now).state;
      t.inventory == s.inventory
      && (KnowsMushroom(s.knownMushrooms, m.id) ==> t == s)
      && (!KnowsMushroom(s.knownMushrooms, m.id) ==>
            t.knownMushrooms == s.knownMushrooms + [m.(identified := true)])
      && KnowsMushroom(t.knownMushrooms, m.id)
    ensures var t := Reduce(s, IdentifyMushroom(m), now).state;
      Reduce(t, IdentifyMushroom(m), now).state == t
  {
    var k := s.knownMushrooms;
    if !KnowsMushroom(k, m.id) {
      assert (k + [m.(identified := true)])[|k|].id == m.id;
    }
  }

  /** DISCOVER_AREA appends only a new area id and is idempotent. */
  lemma DiscoverAreaEffect(s: GameState, area: Area, now: string)
    ensures var t := Reduce(s, DiscoverArea(area), now).state;
      t.inventory == s.inventory
      && (KnowsArea(s.discoveredAreas, area.id) ==> t == s)
      && (!KnowsArea(s.discoveredAreas, area.id) ==> t.discoveredAreas == s.discoveredAreas + [area])
      && KnowsArea(t.discoveredAreas, area.id)
    ensures var t := Reduce(s, DiscoverArea(area), now).state;
      Reduce(t, DiscoverArea(area), now).state == t
  {
    var d := s.discoveredAreas;
    if !KnowsArea(d, area.id) {
      assert (d + [area])[|d|].id == area.id;
    }
  }

  /**
   * SELL_MUSHROOM: an unknown id changes nothing; otherwise the line is removed (held at
   * most the quantity sold) or decremented, and cash rises by exactly price * quantity.
   */
  lemma SellEffect(s: GameState, itemId: string, price: int, quantity: int, now: string)
    ensures var t := Reduce(s, SellMushroom(itemId, price, quantity), now).state;
      match FindById(s.inventory, itemId)
      case None => t == s
      case Some(i) =>
        t.shop.cash == s.shop.cash + price * quantity
        && t.shop.(cash := s.shop.cash) == s.shop
        && (s.inventory[i].quantity <= quantity ==>
              |t.inventory| == |s.inventory| - 1 && (forall k :: 0 <= k < |t.inventory| ==> t.inventory[k].id != itemId || k >= i)
              && t.inventory == RemoveAt(s.inventory, i))
        && (s.inventory[i].quantity > quantity ==>
              |t.inventory| == |s.inventory| && t.inventory[i].quantity == s.inventory[i].quantity - quantity
              && forall k :: 0 <= k < |s.inventory| && k != i ==> t.inventory[k] == s.inventory[k])
  {
  }

  /** Selling exactly what is held removes that quantity from the total. */
  lemma {:induction false} SellTotal(inv: seq<Item>, i: nat, quantity: int)
    requires i < |inv|
    ensures Total(SellLine(inv, i, quantity)) == Total(inv) - Min(inv[i].quantity, quantity)
  {
    if inv[i].quantity <= quantity {
      TotalRemoveAt(inv, i);
    } else {
      TotalUpdate(inv, i, inv[i].quantity - quantity);
    }
  }

  /** One craft step takes away min(held, required) of a found line and nothing otherwise. */
  lemma ConsumeOneTotal(inv: seq<Item>, ingredient: Item)
    ensures Total(ConsumeOne(inv, ingredient)) ==
      match FindById(inv, ingredient.id)
      case None => Total(inv)
      case Some(i) => Total(inv) - Min(inv[i].quantity, ingredient.quantity)
  {
    match FindById(inv, ingredient.id)
    case None =>
    case Some(i) => SellTotal(inv, i, ingredient.quantity);
  }

  predicate AllPositive(inv: seq<Item>)
  {
    forall k :: 0 <= k < |inv| ==> inv[k].quantity > 0
  }

  /** Crafting never leaves a line at zero or below: a line is decremented only when more is held. */
  lemma {:induction false} ConsumeAllKeepsPositive(inv: seq<Item>, ingredients: seq<Item>)
    requires AllPositive(inv)
    ensures AllPositive(ConsumeAll(inv, ingredients))
    decreases |ingredients|
  {
    if ingredients != [] {
      var before := ConsumeAll(inv, ingredients[..|ingredients| - 1]);
      ConsumeAllKeepsPositive(inv, ingredients[..|ingredients| - 1]);
      var ing := ingredients[|ingredients| - 1];
      match FindById(before, ing.id)
      case None =>
      case Some(i) =>
        var r := SellLine(before, i, ing.quantity);
        if before[i].quantity <= ing.quantity {
          assert forall k :: 0 <= k < |r| ==> r[k] == before[if k < i then k else k + 1];
        }
    }
  }

  /** An ingredient whose id is not in the inventory is skipped. */
  lemma ConsumeMissingSkipped(inv: seq<Item>, ingredient: Item)
    requires forall k :: 0 <= k < |inv| ==> inv[k].id != ingredient.id
    ensures ConsumeOne(inv, ingredient) == inv
  {
  }

  /** The line `find(item => item.id === id)` returns, if any. */
  function FirstLine(inv: seq<Item>, id: string): Option<Item>
  {
    match FindById(inv, id)
    case None => None
    case Some(i) => Some(inv[i])
  }

  /** The summed quantities an ingredient list asks for. */
  function Need(ingredients: seq<Item>): int
    decreases |ingredients|
  {
    if ingredients == [] then 0
    else Need(ingredients[..|ingredients| - 1]) + ingredients[|ingredients| - 1].quantity
  }

  /** The ingredient is held, and its line has at least the quantity asked for. */
  predicate HeldInFull(inv: seq<Item>, ingredient: Item)
  {
    FirstLine(inv, ingredient.id).Some? && FirstLine(inv, ingredient.id).value.quantity >= ingredient.quantity
  }

  /** Removing a line of another id leaves the first line with `id` as it was. */
  lemma {:induction false} FirstLineAfterRemove(inv: seq<Item>, i: nat, id: string)
    requires i < |inv| && inv[i].id != id
    ensures FirstLine(RemoveAt(inv, i), id) == FirstLine(inv, id)
  {
    var r := RemoveAt(inv, i);
    match FindById(inv, id)
    case None =>
      assert forall k :: 0 <= k < |r| ==> r[k].id != id by {
        forall k | 0 <= k < |r| ensures r[k].id != id {
          if k >= i { assert r[k] == inv[k + 1]; }
        }
      }
    case Some(j) =>
      var j' := if j < i then j else j - 1;
      assert r[j'] == inv[j];
      assert forall k :: 0 <= k < j' ==> r[k].id != id by {
        forall k | 0 <= k < j' ensures r[k].id != id {
          if k >= i { assert r[k] == inv[k + 1]; }
        }
      }
  }

  /** Changing a line's quantity keeps every id in place, so the first line of another id. */
  lemma {:induction false} FirstLineAfterUpdate(inv: seq<Item>, i: nat, q: int, id: string)
    requires i < |inv| && inv[i].id != id
    ensures FirstLine(inv[i := inv[i].(quantity := q)], id) == FirstLine(inv, id)
  {
    var r := inv[i := inv[i].(quantity := q)];
    assert forall k :: 0 <= k < |r| ==> r[k].id == inv[k].id;
    match FindById(inv, id)
    case None =>
    case Some(j) =>
      assert r[j] == inv[j];
  }

  /** A craft step on another id leaves the first line with `id` as it was. */
  lemma {:induction false} ConsumeOneKeepsOthers(inv: seq<Item>, ingredient: Item, id: string)
    requires ingredient.id != id
    ensures FirstLine(ConsumeOne(inv, ingredient), id) == FirstLine(inv, id)
  {
    match FindById(inv, ingredient.id)
    case None =>
    case Some(i) =>
      if inv[i].quantity <= ingredient.quantity {
        FirstLineAfterRemove(inv, i, id);
      } else {
        FirstLineAfterUpdate(inv, i, inv[i].quantity - ingredient.quantity, id);
      }
  }

  /** The craft steps of other ids leave the first line with `id` as it was. */
  lemma {:induction false} ConsumeAllKeepsOthers(inv: seq<Item>, ingredients: seq<Item>, id: string)
    requires forall k :: 0 <= k < |ingredients| ==> ingredients[k].id != id
    ensures FirstLine(ConsumeAll(inv, ingredients), id) == FirstLine(inv, id)
    decreases |ingredients|
  {
    if ingredients != [] {
      var init := ingredients[..|ingredients| - 1];
      ConsumeAllKeepsOthers(inv, init, id);
      ConsumeOneKeepsOthers(ConsumeAll(inv, init), ingredients[|ingredients| - 1], id);
    }
  }

  /**
   * A whole CRAFT_PRODUCT loop over ingredients with distinct ids, each held in full,
   * lowers the inventory total by exactly the summed required quantities.
   */
  lemma {:induction false} ConsumeAllTotal(inv: seq<Item>, ingredients: seq<Item>)
    requires forall a, b :: 0 <= a < b < |ingredients| ==> ingredients[a].id != ingredients[b].id
    requires forall k :: 0 <= k < |ingredients| ==> HeldInFull(inv, ingredients[k])
    ensures Total(ConsumeAll(inv, ingredients)) == Total(inv) - Need(ingredients)
    decreases |ingredients|
  {
    if ingredients != [] {
      var n := |ingredients| - 1;
      var init, last := ingredients[..n], ingredients[n];
      ConsumeAllTotal(inv, init);
      var before := ConsumeAll(inv, init);
      ConsumeAllKeepsOthers(inv, init, last.id);
      assert HeldInFull(inv, last);
      ConsumeOneTotal(before, last);
    }
  }

  // ---------------------------------------------------------------------------
  // The tile grid
  // ---------------------------------------------------------------------------

  /** A cell after the target and the positions in `seen` were discovered. */
  function Seen(t: Tile, p: Position, target: Position, seen: seq<Position>): Tile
  {
    if p == target || p in seen then t.(discovered := true) else t
  }

  /** MOVE_PLAYER on one cell: the target and its in-bounds neighbours become discovered. */
  function MovedTile(t: Tile, p: Position, target: Position, width: int, height: int): (r: Tile)
    ensures r.(discovered := t.discovered) == t
    ensures t.discovered ==> r.discovered
    ensures r.discovered <==> t.discovered || p == target || p in GetAdjacentTiles(target.x, target.y, width, height)
  {
    Seen(t, p, target, GetAdjacentTiles(target.x, target.y, width, height))
  }

  /** TRIGGER_EVENT on its cell. */
  function ClearedTile(t: Tile): (r: Tile)
    ensures !r.hasEvent && r.eventType.None?
    ensures r.biome == t.biome && r.discovered == t.discovered && r.x == t.x && r.y == t.y
  {
    t.(hasEvent := false, eventType := None)
  }

  predicate TileWellFormed(t: Tile, x: int, y: int)
  {
    t.x == x && t.y == y && (t.hasEvent <==> t.eventType.Some?)
  }

  /** The in-place part of MOVE_PLAYER: discover the target, then each listed neighbour. */
  method MarkDiscovered(tiles: array2<Tile>, target: Position, adjacent: seq<Position>)
    requires IsInBounds(target.x, target.y, tiles.Length1, tiles.Length0)
    requires forall p :: p in adjacent ==> IsInBounds(p.x, p.y, tiles.Length1, tiles.Length0)
    modifies tiles
    ensures forall j, i :: 0 <= j < tiles.Length0 && 0 <= i < tiles.Length1 ==>
      tiles[j, i] == Seen(old(tiles[j, i]), Position(i, j), target, adjacent)
  {
    tiles[target.y, target.x] := tiles[target.y, target.x].(discovered := true);
    var k := 0;
    while k < |adjacent|
      invariant 0 <= k <= |adjacent|
      invariant forall j, i :: 0 <= j < tiles.Length0 && 0 <= i < tiles.Length1 ==>
        tiles[j, i] == Seen(old(tiles[j, i]), Position(i, j), target, adjacent[..k])
    {
      var p := adjacent[k];
      assert adjacent[..k + 1] == adjacent[..k] + [p];
      assert p in adjacent;
      tiles[p.y, p.x] := tiles[p.y, p.x].(discovered := true);
      k := k + 1;
    }
    assert adjacent[..k] == adjacent;
  }

  /** The grid side of MOVE_PLAYER to column x, row y, each cell becoming its MovedTile. */
  method MoveTiles(tiles: array2<Tile>, x: int, y: int)
    requires IsInBounds(x, y, tiles.Length1, tiles.Length0)
    requires GridWellFormed(tiles)
    modifies tiles
    ensures GridWellFormed(tiles)
    ensures forall j, i :: 0 <= j < tiles.Length0 && 0 <= i < tiles.Length1 ==>
      tiles[j, i] == MovedTile(old(tiles[j, i]), Position(i, j), Position(x, y), tiles.Length1, tiles.Length0)
  {
    MarkDiscovered(tiles, Position(x, y), GetAdjacentTiles(x, y, tiles.Length1, tiles.Length0));
    forall j, i | 0 <= j < tiles.Length0 && 0 <= i < tiles.Length1
      ensures TileWellFormed(tiles[j, i], i, j)
    {
      assert TileWellFormed(old(tiles[j, i]), i, j);
    }
  }

  ghost predicate GridWellFormed(tiles: array2<Tile>)
    reads tiles
  {
    forall y, x :: 0 <= y < tiles.Length0 && 0 <= x < tiles.Length1 ==> TileWellFormed(tiles[y, x], x, y)
  }

  /** The value part of initialGameState (its map is a fresh 10 x 10 one). */
  function InitialGameState(): (s: GameState)
    ensures VitalsInRange(s.player) && s.inventory == [] && s.currentDay == 1
  {
    GameState(
      shop := Shop("spore-sanctuary", "Spore Sanctuary", 1, 0, [], 100),
      knownMushrooms := [],
      discoveredAreas := [Area("mosswood-forest", "Mosswood Forest", Forest)],
      currentArea := None,
      currentDay := 1,
      gamePhase := Exploration,
      player := Player(
        "Finn Fungus", 100, 100, 100, 100,
        ["Identification", "Foraging"],
        [Companion("truffle", "Truffle", "companion", ["Tracking", "Digging"], "/assets/characters/truffle.png")]),
      explorationMap := MapInfo(StartPosition(10, 10), 10, 10),
      inventory := [])
  }

  /** The game's single state root: the value state and the tile grid it shares in place. */
  class Game {
    var state: GameState
    var tiles: array2<Tile>

    ghost predicate Valid()
      reads this, tiles
    {
      var m := state.explorationMap;
      tiles.Length0 == m.height && tiles.Length1 == m.width
      && IsInBounds(m.playerPosition.x, m.playerPosition.y, m.width, m.height)
      && VitalsInRange(state.player)
      && GridWellFormed(tiles)
    }

    /** initialGameState, its map built from the given draws. */
    constructor (draws: MapDraws)
      requires Fits(draws, 10, 10)
      ensures Valid() && fresh(tiles)
      ensures state == InitialGameState()
      ensures forall y, x :: 0 <= y < 10 && 0 <= x < 10 ==>
        tiles[y, x] == GeneratedTile(x, y, 10, 10, draws.biome[y][x], draws.event[y][x])
    {
      var t, start := GenerateMap(10, 10, draws);
      tiles := t;
      state := InitialGameState();
      new;
      forall y, x | 0 <= y < 10 && 0 <= x < 10 ensures TileWellFormed(tiles[y, x], x, y) {
        GeneratedTileWellFormed(x, y, 10, 10, draws.biome[y][x], draws.event[y][x]);
      }
    }

    /**
     * gameReducer applied to the current state. `now` stands for Date.now() and `draws`
     * for the random draws of GENERATE_NEW_MAP. `thrown` reports the TypeError the
     * reducer raises, in which case nothing changes.
     */
    method Dispatch(a: Action, now: string, draws: MapDraws) returns (thrown: bool)
      requires Valid()
      requires a.TriggerEvent? && 0 <= a.y < state.explorationMap.height ==> 0 <= a.x < state.explorationMap.width
      requires a.GenerateNewMap? ==> a.width >= 1 && a.height >= 1 && Fits(draws, a.width, a.height)
      requires a.UpdateMapTiles? ==>
        a.tiles.Length0 == state.explorationMap.height && a.tiles.Length1 == state.explorationMap.width
        && GridWellFormed(a.tiles)
      modifies this, tiles
      ensures Valid()
      ensures thrown <==> Reduce(old(state), a, now).Throws?
      ensures state == Apply(old(state), a, now)
      ensures thrown ==> tiles == old(tiles) && unchanged(tiles)
      ensures a.GenerateNewMap? ==> fresh(tiles) && forall y, x :: 0 <= y < a.height && 0 <= x < a.width ==>
        tiles[y, x] == GeneratedTile(x, y, a.width, a.height, draws.biome[y][x], draws.event[y][x])
      ensures a.UpdateMapTiles? ==> tiles == a.tiles && unchanged(a.tiles)
      ensures !a.GenerateNewMap? && !a.UpdateMapTiles? ==> tiles == old(tiles)
      ensures a.MovePlayer? && !thrown ==> forall y, x :: 0 <= y < tiles.Length0 && 0 <= x < tiles.Length1 ==>
        tiles[y, x] == MovedTile(old(tiles[y, x]), Position(x, y), Position(a.x, a.y), tiles.Length1, tiles.Length0)
      ensures a.TriggerEvent? && !thrown ==> forall y, x :: 0 <= y < tiles.Length0 && 0 <= x < tiles.Length1 ==>
        tiles[y, x] == if x == a.x && y == a.y then ClearedTile(old(tiles[y, x])) else old(tiles[y, x])
      ensures !a.GenerateNewMap? && !a.UpdateMapTiles? && !a.MovePlayer? && !a.TriggerEvent? ==> unchanged(tiles)
    {
      match a
      case MovePlayer(_, _) =>
        thrown := DispatchMove(a, now);
      case TriggerEvent(_, _) =>
        thrown := DispatchTrigger(a, now);
      case GenerateNewMap(_, _) =>
        DispatchGenerate(a, now, draws);
        thrown := false;
      case UpdateMapTiles(t) =>
        tiles := t;
        thrown := false;
      case CraftProduct(_, _) =>
        DispatchCraft(a, now);
        thrown := false;
      case _ =>
        thrown := DispatchValue(a, now);
    }

    /** Dispatch of CRAFT_PRODUCT, the inventory rebuilt line by line. */
    method DispatchCraft(a: Action, now: string)
      requires Valid() && a.CraftProduct?
      modifies this
      ensures Valid() && tiles == old(tiles) && unchanged(tiles)
      ensures Reduce(old(state), a, now).Next? && state == Apply(old(state), a, now)
    {
      assert a == CraftProduct(a.ingredients, a.result);
      CraftSetsInventory(state, a.ingredients, a.result, now);
      var inventory := CraftInventory(state.inventory, a.ingredients, a.result);
      state := state.(inventory := inventory);
    }

    /** Dispatch of an action that changes the value state only. */
    method DispatchValue(a: Action, now: string) returns (thrown: bool)
      requires Valid()
      requires !a.MovePlayer? && !a.TriggerEvent? && !a.GenerateNewMap? && !a.UpdateMapTiles? && !a.CraftProduct?
      modifies this
      ensures Valid() && tiles == old(tiles) && unchanged(tiles)
      ensures thrown <==> Reduce(old(state), a, now).Throws?
      ensures state == Apply(old(state), a, now)
    {
      ReducePreservesVitals(state, a, now);
      var next := Reduce(state, a, now);
      if next.Throws? {
        return true;
      }
      state := next.state;
      thrown := false;
    }

    /** Dispatch of MOVE_PLAYER: the position is set and the target and its neighbours are marked discovered. */
    method DispatchMove(a: Action, now: string) returns (thrown: bool)
      requires Valid() && a.MovePlayer?
      modifies this, tiles
      ensures Valid() && tiles == old(tiles)
      ensures thrown <==> Reduce(old(state), a, now).Throws?
      ensures state == Apply(old(state), a, now)
      ensures thrown ==> unchanged(tiles)
      ensures !thrown ==> forall j, i :: 0 <= j < tiles.Length0 && 0 <= i < tiles.Length1 ==>
        tiles[j, i] == MovedTile(old(tiles[j, i]), Position(i, j), Position(a.x, a.y), tiles.Length1, tiles.Length0)
    {
      var x, y := a.x, a.y;
      var m := state.explorationMap;
      assert a == MovePlayer(x, y);
      MoveSetsPosition(state, x, y, now);
      if !IsInBounds(x, y, m.width, m.height) {
        return true;
      }
      MoveTiles(tiles, x, y);
      state := state.(explorationMap := m.(playerPosition := Position(x, y)));
      thrown := false;
    }

    /** Dispatch of TRIGGER_EVENT: the event of the tile in row y, column x is cleared. */
    method DispatchTrigger(a: Action, now: string) returns (thrown: bool)
      requires Valid() && a.TriggerEvent?
      requires 0 <= a.y < state.explorationMap.height ==> 0 <= a.x < state.explorationMap.width
      modifies tiles
      ensures Valid() && state == old(state) && state == Apply(old(state), a, now)
      ensures thrown <==> Reduce(old(state), a, now).Throws?
      ensures thrown ==> unchanged(tiles)
      ensures !thrown ==> forall j, i :: 0 <= j < tiles.Length0 && 0 <= i < tiles.Length1 ==>
        tiles[j, i] == if i == a.x && j == a.y then ClearedTile(old(tiles[j, i])) else old(tiles[j, i])
    {
      var x, y := a.x, a.y;
      assert a == TriggerEvent(x, y);
      TriggerKeepsState(state, x, y, now);
      if !(0 <= y < state.explorationMap.height) {
        return true;
      }
      tiles[y, x] := tiles[y, x].(hasEvent := false, eventType := None);
      thrown := false;
    }

    /** Dispatch of GENERATE_NEW_MAP: a fresh grid from the draws, the player at its centre. */
    method DispatchGenerate(a: Action, now: string, draws: MapDraws)
      requires Valid() && a.GenerateNewMap?
      requires a.width >= 1 && a.height >= 1 && Fits(draws, a.width, a.height)
      modifies this
      ensures Valid() && fresh(tiles)
      ensures Reduce(old(state), a, now).Next? && state == Apply(old(state), a, now)
      ensures forall y, x :: 0 <= y < a.height && 0 <= x < a.width ==>
        tiles[y, x] == GeneratedTile(x, y, a.width, a.height, draws.biome[y][x], draws.event[y][x])
    {
      var w, h := a.width, a.height;
      assert a == GenerateNewMap(w, h);
      GenerateSetsMap(state, w, h, now);
      var t, start := GenerateMap(w, h, draws);
      tiles := t;
      state := state.(explorationMap := MapInfo(start, w, h));
      forall y, x | 0 <= y < h && 0 <= x < w ensures TileWellFormed(tiles[y, x], x, y) {
        GeneratedTileWellFormed(x, y, w, h, draws.biome[y][x], draws.event[y][x]);
      }
    }
  }
}
