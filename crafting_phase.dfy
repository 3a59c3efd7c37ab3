// The crafting screen's rules (src/components/phases/CraftingPhase.tsx): the recipe
// list, the availability test, the ingredient lookup and the craft handler.
module CraftingPhase {
  import opened Wrappers
  import opened Types
  import opened GameContext

  datatype ProductKind = Food | Medicine | Material | Decoration

  datatype Ingredient = Ingredient(mushroomId: string, quantity: int)

  datatype RecipeResult = RecipeResult(id: string, name: string, kind: ProductKind, baseValue: int, effects: seq<string>)

  datatype Recipe = Recipe(id: string, name: string, kind: ProductKind, ingredients: seq<Ingredient>, result: RecipeResult)

  /** The one recipe: two "reishi-1" and one "morel-1" make a healing potion worth 100. */
  const HealingPotion := Recipe(
    "healing-potion", "Healing Potion", Medicine,
    [Ingredient("reishi-1", 2), Ingredient("morel-1", 1)],
    RecipeResult("healing-potion-1", "Healing Potion", Medicine, 100, ["Restores 50 health", "Provides energy boost"]))

  const Recipes := [HealingPotion]

  /** `item.mushroomId === id`: the line is a crafted or bought line for that mushroom. */
  predicate CarriesId(item: Item, id: string)
  {
    item.mushroomId.Some? && item.mushroomId.value == id
  }

  /** `inventory.find(item => item.mushroomId === id)`, as an index. */
  function FindByMushroomId(inv: seq<Item>, id: string): (r: Option<nat>)
    ensures r.Some? ==>
      r.value < |inv| && CarriesId(inv[r.value], id)
      && forall k :: 0 <= k < r.value ==> !CarriesId(inv[k], id)
    ensures r.None? ==> forall k :: 0 <= k < |inv| ==> !CarriesId(inv[k], id)
  {
    if inv == [] then None
    else if CarriesId(inv[0], id) then Some(0)
    else match FindByMushroomId(inv[1..], id)
      case None => None
      case Some(k) => Some(k + 1)
  }

  /** The first line for the ingredient holds at least the required quantity. */
  predicate HasIngredient(inv: seq<Item>, ingredient: Ingredient)
  {
    var found := FindByMushroomId(inv, ingredient.mushroomId);
    found.Some? && inv[found.value].quantity >= ingredient.quantity
  }

  /** canCraftRecipe: every ingredient is held in the required quantity. */
  predicate CanCraftRecipe(inv: seq<Item>, recipe: Recipe)
  {
    forall k :: 0 <= k < |recipe.ingredients| ==> HasIngredient(inv, recipe.ingredients[k])
  }

  /**
   * getIngredientsForRecipe: for each ingredient, a copy of its first inventory line
   * carrying the required quantity; "Missing ingredient" when a line is absent.
   */
  function GetIngredientsForRecipe(inv: seq<Item>, ingredients: seq<Ingredient>): (r: Result<seq<Item>>)
    ensures r.Err? <==> exists k :: 0 <= k < |ingredients| && FindByMushroomId(inv, ingredients[k].mushroomId).None?
    ensures r.Err? ==> r.message == "Missing ingredient"
    ensures r.Ok? ==> |r.value| == |ingredients|
    ensures r.Ok? ==> forall k :: 0 <= k < |ingredients| ==>
      var found := FindByMushroomId(inv, ingredients[k].mushroomId);
      found.Some? && r.value[k] == inv[found.value].(quantity := ingredients[k].quantity)
  {
    if ingredients == [] then Ok([])
    else
      var rest := GetIngredientsForRecipe(inv, ingredients[1..]);
      assert forall k :: 1 <= k < |ingredients| ==> ingredients[k] == ingredients[1..][k - 1];
      match FindByMushroomId(inv, ingredients[0].mushroomId)
      case None => Err("Missing ingredient")
      case Some(i) =>
        if rest.Err? then
          var k :| 0 <= k < |ingredients| - 1 && FindByMushroomId(inv, ingredients[1..][k].mushroomId).None?;
          assert FindByMushroomId(inv, ingredients[k + 1].mushroomId).None?;
          Err(rest.message)
        else
          Ok([inv[i].(quantity := ingredients[0].quantity)] + rest.value)
  }

  /** A recipe the screen offers always finds its ingredients, each held in at least the required quantity. */
  lemma {:induction false} CanCraftFindsIngredients(inv: seq<Item>, recipe: Recipe)
    requires CanCraftRecipe(inv, recipe)
    ensures var r := GetIngredientsForRecipe(inv, recipe.ingredients);
      r.Ok? && forall k :: 0 <= k < |recipe.ingredients| ==>
        r.value[k].quantity == recipe.ingredients[k].quantity
        && exists i :: 0 <= i < |inv| && inv[i].id == r.value[k].id && inv[i].quantity >= r.value[k].quantity
  {
    var ings := recipe.ingredients;
    var r := GetIngredientsForRecipe(inv, ings);
    forall k | 0 <= k < |ings|
      ensures FindByMushroomId(inv, ings[k].mushroomId).Some?
      ensures exists i :: 0 <= i < |inv| && inv[i].id == r.value[k].id && inv[i].quantity >= r.value[k].quantity
    {
      HeldIngredient(inv, ings[k]);
    }
  }

  /** An ingredient that passes the availability test has a line holding enough of it. */
  lemma HeldIngredient(inv: seq<Item>, ingredient: Ingredient)
    requires HasIngredient(inv, ingredient)
    ensures var found := FindByMushroomId(inv, ingredient.mushroomId);
      found.Some? && inv[found.value].quantity >= ingredient.quantity
  {
  }

  /** The lookup does not check quantities: a short line is still returned. */
  lemma LookupIgnoresQuantity()
    ensures var inv := [Item("r", None, Some("reishi-1"), 1, 100, 0), Item("m", None, Some("morel-1"), 1, 100, 0)];
      GetIngredientsForRecipe(inv, HealingPotion.ingredients).Ok? && !CanCraftRecipe(inv, HealingPotion)
  {
    var inv := [Item("r", None, Some("reishi-1"), 1, 100, 0), Item("m", None, Some("morel-1"), 1, 100, 0)];
    assert FindByMushroomId(inv, "reishi-1") == Some(0);
    assert FindByMushroomId(inv, "morel-1") == Some(1);
    assert !HasIngredient(inv, HealingPotion.ingredients[0]);
  }

  /** Collected lines carry no `mushroomId`, so an inventory of them can craft nothing. */
  lemma {:induction false} CollectedLinesCannotCraft(inv: seq<Item>, recipe: Recipe)
    requires forall k :: 0 <= k < |inv| ==> inv[k].mushroomId == None
    requires recipe.ingredients != []
    ensures !CanCraftRecipe(inv, recipe)
    ensures GetIngredientsForRecipe(inv, recipe.ingredients) == Err("Missing ingredient")
  {
    var first := recipe.ingredients[0];
    NothingCarried(inv, first.mushroomId);
    assert !HasIngredient(inv, first);
  }

  /** No collected line carries a mushroom id. */
  lemma NothingCarried(inv: seq<Item>, id: string)
    requires forall k :: 0 <= k < |inv| ==> inv[k].mushroomId == None
    ensures FindByMushroomId(inv, id) == None
  {
  }

  /** The line a craft adds: one unit of quality 100, priced at the product's base value. */
  function CraftedItem(recipe: Recipe, now: string): (item: Item)
    ensures item.mushroom.None? && item.mushroomId == Some(recipe.result.id)
    ensures item.quantity == 1 && item.quality == 100 && item.price == recipe.result.baseValue
    ensures item.id == recipe.result.id + "-" + now
  {
    Item(recipe.result.id + "-" + now, None, Some(recipe.result.id), 1, 100, recipe.result.baseValue)
  }

  /**
   * A successful craft ends with the crafted line, and keeps every quantity positive
   * when the inventory's were.
   */
  lemma CraftOutcome(s: GameState, ingredients: seq<Item>, recipe: Recipe, now: string)
    ensures var t := Reduce(s, CraftProduct(ingredients, CraftedItem(recipe, now)), now);
      t.Next? && |t.state.inventory| > 0 && t.state.inventory[|t.state.inventory| - 1] == CraftedItem(recipe, now)
      && t.state.(inventory := s.inventory) == s
      && (AllPositive(s.inventory) ==> AllPositive(t.state.inventory))
  {
    var rest := ConsumeAll(s.inventory, ingredients);
    if AllPositive(s.inventory) {
      ConsumeAllKeepsPositive(s.inventory, ingredients);
      assert forall k :: 0 <= k < |rest| ==> (rest + [CraftedItem(recipe, now)])[k] == rest[k];
    }
  }

  /** The screen's own state: the selected recipe and the crafting flag. */
  class CraftingScreen {
    var selectedRecipe: Option<Recipe>
    var crafting: bool

    constructor ()
      ensures selectedRecipe.None? && !crafting
    {
      selectedRecipe := None;
      crafting := false;
    }

    /** A recipe card's click: it selects the recipe only when it can be crafted. */
    method ClickRecipe(inv: seq<Item>, recipe: Recipe)
      modifies this
      ensures selectedRecipe == if CanCraftRecipe(inv, recipe) then Some(recipe) else old(selectedRecipe)
      ensures crafting == old(crafting)
    {
      if CanCraftRecipe(inv, recipe) {
        selectedRecipe := Some(recipe);
      }
    }

    /**
     * handleCraft, its two-second timer run at once. `failed` reports the caught
     * "Missing ingredient" error, which leaves game and selection as they were.
     */
    method HandleCraft(g: Game, now: string) returns (failed: bool)
      requires g.Valid()
      modifies this, g, g.tiles
      ensures g.Valid() && g.tiles == old(g.tiles) && unchanged(g.tiles)
      ensures old(selectedRecipe).None? ==>
        !failed && g.state == old(g.state) && selectedRecipe.None? && crafting == old(crafting)
      ensures old(selectedRecipe).Some? ==>
        var recipe := old(selectedRecipe).value;
        var found := GetIngredientsForRecipe(old(g.state.inventory), recipe.ingredients);
        !crafting && (failed <==> found.Err?)
        && (found.Err? ==> g.state == old(g.state) && selectedRecipe == old(selectedRecipe))
        && (found.Ok? ==>
              g.state == Apply(old(g.state), CraftProduct(found.value, CraftedItem(recipe, now)), now)
              && selectedRecipe.None?)
    {
      failed := false;
      if selectedRecipe.None? {
        return;
      }
      var recipe := selectedRecipe.value;
      crafting := true;
      var found := GetIngredientsForRecipe(g.state.inventory, recipe.ingredients);
      if found.Err? {
        failed := true;
      } else {
        var craftedItem := CraftedItem(recipe, now);
        g.DispatchCraft(CraftProduct(found.value, craftedItem), now);
        selectedRecipe := None;
      }
      crafting := false;
    }

    /** The craft button: disabled while crafting or when the selected recipe cannot be crafted. */
    method PressCraft(g: Game, now: string) returns (pressed: bool)
      requires g.Valid()
      modifies this, g, g.tiles
      ensures g.Valid() && g.tiles == old(g.tiles) && unchanged(g.tiles)
      ensures pressed <==> old(selectedRecipe).Some? && !old(crafting) && CanCraftRecipe(old(g.state.inventory), old(selectedRecipe).value)
      ensures !pressed ==> g.state == old(g.state) && selectedRecipe == old(selectedRecipe)
      ensures crafting == old(crafting)
      ensures pressed ==>
        var recipe := old(selectedRecipe).value;
        var found := GetIngredientsForRecipe(old(g.state.inventory), recipe.ingredients);
        found.Ok? && selectedRecipe.None?
        && g.state == Apply(old(g.state), CraftProduct(found.value, CraftedItem(recipe, now)), now)
    {
      pressed := selectedRecipe.Some? && !crafting && CanCraftRecipe(g.state.inventory, selectedRecipe.value);
      if !pressed {
        return;
      }
      CanCraftFindsIngredients(g.state.inventory, selectedRecipe.value);
      var failed := HandleCraft(g, now);
    }
  }
}
