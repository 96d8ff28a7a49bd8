/** The client's data model: the JSON records returned by the Guild Wars 2 API
    (items, item details, recipes) and the small wrappers the model uses for
    Kotlin's nullable values and thrown exceptions. */
module Model {

  /** Kotlin's nullable `T?`. */
  datatype Option<+T> = None | Some(value: T)

  /** A thrown exception, as far as the client looks at it: its (localized)
      message, which may be absent, and whether it is a coroutine
      `CancellationException`. */
  datatype Exception = Exception(message: Option<string>, isCancellation: bool)

  /** The outcome of a call that either returns a value or throws. */
  datatype Fetch<+T> = Ok(value: T) | Failed(error: Exception)

  /** One stat bonus of an upgrade. */
  datatype ItemAttribute = ItemAttribute(attribute: string, modifier: int)

  /** The stat bonuses of an item. */
  datatype InfixUpgrade = InfixUpgrade(attributes: seq<ItemAttribute>)

  /** Type-specific details of an item: weapon or armour subtype, damage
      range, defense and stat bonuses; every field may be absent. */
  datatype ItemDetails = ItemDetails(
    subtype: Option<string>,
    damageType: Option<string>,
    minPower: Option<int>,
    maxPower: Option<int>,
    defense: Option<int>,
    infixUpgrade: Option<InfixUpgrade>)

  /** An item of the catalogue. `subtype` above is the JSON key `type` of the
      nested details object. */
  datatype ItemDetail = ItemDetail(
    id: int,
    name: string,
    icon: string,
    itemType: string,
    rarity: string,
    level: int,
    details: Option<ItemDetails>,
    gameTypes: Option<seq<string>>)

  /** One `(item_id, count)` entry of a recipe. */
  datatype RecipeIngredient = RecipeIngredient(itemId: int, count: int)

  /** A crafting recipe: which item it produces, how many, and from what. */
  datatype RecipeResponse = RecipeResponse(
    id: int,
    recipeType: string,
    outputItemId: int,
    outputItemCount: int,
    ingredients: seq<RecipeIngredient>)

  /** An ingredient ready for display: the name and icon of the ingredient's
      item together with the count the recipe asks for. */
  datatype CraftingIngredient = CraftingIngredient(name: string, icon: string, count: int)
}
