/** `DetailViewModel`: the detail screen's state machine. Every load first
    shows `Loading`, then either the item with its recipe's ingredients or
    an error message. */
module Detail {
  import opened Model
  import opened Api

  /** The screen's states. `recipeIngredients` is nullable in the source,
      hence the `Option`. */
  datatype UiState =
    | Loading
    | Success(item: ItemDetail, recipeIngredients: Option<seq<RecipeIngredient>>)
    | Error(errorMessage: string)

  /** What the screen shows when an exception carries no message. */
  const UnknownError: string := "Error desconocido"

  /** The text shown for a failed load: the exception's message, or the
      fixed fallback when it has none. */
  function ErrorText(e: Exception): (m: string)
    ensures e.message.Some? ==> m == e.message.value
    ensures e.message.None? ==> m == UnknownError
  {
    match e.message
    case Some(text) => text
    case None => UnknownError
  }

  /** The state a load ends in, given what the item request and the recipe
      request (made with the same id) return. A failed item request gives
      `Error`; otherwise the item is shown with the recipe's ingredients,
      and a failed recipe request only empties the ingredient list. */
  function LoadOutcome(item: Fetch<ItemDetail>, recipe: Fetch<RecipeResponse>): (s: UiState)
    ensures !s.Loading?
    ensures s.Error? <==> item.Failed?
    ensures s.Error? ==> s.errorMessage == ErrorText(item.error)
    ensures s.Success? ==> s.item == item.value && s.recipeIngredients.Some?
    ensures s.Success? && recipe.Ok? ==> s.recipeIngredients.value == recipe.value.ingredients
    ensures s.Success? && recipe.Failed? ==> s.recipeIngredients.value == []
  {
    match item
    case Failed(e) => Error(ErrorText(e))
    case Ok(detail) =>
      var ingredients := match recipe
        case Ok(r) => r.ingredients
        case Failed(_) => [];
      Success(detail, Some(ingredients))
  }

  class DetailViewModel {
    const api: Gw2Api

    var itemDetailState: UiState

    /** Every value assigned to `itemDetailState`, oldest first. */
    ghost var stateLog: seq<UiState>

    constructor (api: Gw2Api)
      ensures this.api == api
      ensures itemDetailState == Loading && stateLog == [Loading]
    {
      this.api := api;
      itemDetailState := Loading;
      stateLog := [Loading];
    }

    /** `loadItemById`: shows `Loading`, requests the item, then the recipe
        with the same id whatever the item's type, and shows the outcome. */
    method LoadItemById(id: int)
      modifies this
      ensures itemDetailState == LoadOutcome(api.itemById(id), api.recipeById(id))
      ensures stateLog == old(stateLog) + [Loading, itemDetailState]
    {
      itemDetailState := Loading;
      stateLog := stateLog + [itemDetailState];
      var detail := api.itemById(id);
      if detail.Failed? {
        itemDetailState := Error(ErrorText(detail.error));
      } else {
        var ingredients: seq<RecipeIngredient>;
        var recipe := api.recipeById(id);
        if recipe.Failed? {
          ingredients := [];
        } else {
          ingredients := recipe.value.ingredients;
        }
        itemDetailState := Success(detail.value, Some(ingredients));
      }
      stateLog := stateLog + [itemDetailState];
    }
  }
}
