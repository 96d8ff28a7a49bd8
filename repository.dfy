/** The item repository: an in-memory cache of the whole catalogue, filled
    once by the preload, a local case-insensitive search over it, and the
    crafting-ingredient join for the detail screen. */
module Repository {
  import opened Model
  import opened Api
  import opened Lists
  import opened Text

  /** The query as the search compares it: trimmed, then lower-cased. */
  function NormalizeQuery(query: string): string {
    Lowercase(Trim(query))
  }

  /** The search's match rule: the normalized query occurs in the
      lower-cased name, in the lower-cased type, or in the lower-cased
      subtype of the item's details when there is one. */
  predicate Matches(item: ItemDetail, q: string) {
    || Contains(Lowercase(item.name), q)
    || Contains(Lowercase(item.itemType), q)
    || (item.details.Some? && item.details.value.subtype.Some? &&
        Contains(Lowercase(item.details.value.subtype.value), q))
  }

  /** The ids of a recipe's ingredients, in recipe order. */
  function IngredientIds(ingredients: seq<RecipeIngredient>): seq<int> {
    Map(ingredients, (ing: RecipeIngredient) => ing.itemId)
  }

  /** The display entry of one ingredient: the name and icon of the first
      fetched detail with the ingredient's id, and the recipe's count; null
      when no detail has that id. */
  function ToCraftingIngredient(details: seq<ItemDetail>, ing: RecipeIngredient): Option<CraftingIngredient> {
    match Find(details, (d: ItemDetail) => d.id == ing.itemId)
    case None => None
    case Some(d) => Some(CraftingIngredient(d.name, d.icon, ing.count))
  }

  /** The ingredient join: each recipe ingredient paired with its detail,
      those without one dropped. */
  function JoinIngredients(ingredients: seq<RecipeIngredient>, details: seq<ItemDetail>): seq<CraftingIngredient> {
    MapNotNull(ingredients, (ing: RecipeIngredient) => ToCraftingIngredient(details, ing))
  }

  /** Some fetched detail has the id `id`. */
  ghost predicate HasDetail(details: seq<ItemDetail>, id: int) {
    exists j :: 0 <= j < |details| && details[j].id == id
  }

  /** `details[j]` is the first fetched detail with the id `id`. */
  ghost predicate FirstDetail(details: seq<ItemDetail>, id: int, j: int) {
    0 <= j < |details| && details[j].id == id && forall j' :: 0 <= j' < j ==> details[j'].id != id
  }

  /** The join follows recipe order and keeps exactly the ingredients that
      have a detail; entry `k` carries the name and icon of the first detail
      with its ingredient's id and that ingredient's count. Hence it is never
      longer than the recipe. */
  lemma JoinPositions(ingredients: seq<RecipeIngredient>, details: seq<ItemDetail>) returns (idx: seq<nat>)
    ensures Ascending(idx, |ingredients|)
    ensures |JoinIngredients(ingredients, details)| == |idx| <= |ingredients|
    ensures forall i :: 0 <= i < |ingredients| ==> (i in idx <==> HasDetail(details, ingredients[i].itemId))
    ensures forall k :: 0 <= k < |idx| ==>
              exists j :: FirstDetail(details, ingredients[idx[k]].itemId, j) &&
                          JoinIngredients(ingredients, details)[k] ==
                            CraftingIngredient(details[j].name, details[j].icon, ingredients[idx[k]].count)
  {
    var f := (ing: RecipeIngredient) => ToCraftingIngredient(details, ing);
    idx := MapNotNullPositions(ingredients, f);
    var r := JoinIngredients(ingredients, details);
    forall i | 0 <= i < |ingredients|
      ensures i in idx <==> HasDetail(details, ingredients[i].itemId)
    {
      var ing := ingredients[i];
      var found := Find(details, (d: ItemDetail) => d.id == ing.itemId);
      assert f(ing).Some? <==> found.Some?;
    }
    forall k | 0 <= k < |idx|
      ensures exists j :: FirstDetail(details, ingredients[idx[k]].itemId, j) &&
                          r[k] == CraftingIngredient(details[j].name, details[j].icon, ingredients[idx[k]].count)
    {
      var ing := ingredients[idx[k]];
      var found := Find(details, (d: ItemDetail) => d.id == ing.itemId);
      assert f(ing) == Some(r[k]);
      var j :| 0 <= j < |details| && details[j] == found.value && details[j].id == ing.itemId &&
               forall j' :: 0 <= j' < j ==> details[j'].id != ing.itemId;
      assert FirstDetail(details, ing.itemId, j);
    }
  }

  /** `ItemRepository`: the catalogue cache and the queries over it. */
  class ItemRepository {
    const api: Gw2Api
    var allItemsCache: Option<seq<ItemDetail>>

    /** A new repository has no cache: the cached list reads as empty. */
    constructor (api: Gw2Api)
      ensures this.api == api && allItemsCache == None
      ensures GetCachedItems() == []
    {
      this.api := api;
      allItemsCache := None;
    }

    /** Stores the complete list; afterwards the cached list is exactly it. */
    method CacheAllItems(list: seq<ItemDetail>)
      modifies this
      ensures allItemsCache == Some(list)
      ensures GetCachedItems() == list
    {
      allItemsCache := Some(list);
    }

    /** The cached list, or the empty list when nothing is cached. */
    function GetCachedItems(): (r: seq<ItemDetail>)
      reads this
      ensures allItemsCache.None? ==> r == []
      ensures allItemsCache.Some? ==> r == allItemsCache.value
    {
      match allItemsCache
      case None => []
      case Some(list) => list
    }

    function GetAllItemIds(): Fetch<seq<int>> {
      api.allItemIds
    }

    function GetItemsByIds(ids: seq<int>): Fetch<seq<ItemDetail>> {
      api.itemsByIds(ids)
    }

    function GetItemById(id: int): Fetch<ItemDetail> {
      api.itemById(id)
    }

    /** The local search. Empty when nothing (or nothing non-empty) is
        cached, whatever the query; otherwise the cached items that match the
        normalized query, in cache order. It only reads the cache. */
    function SearchItemsByName(query: string): (r: seq<ItemDetail>)
      reads this
      ensures GetCachedItems() == [] ==> r == []
      ensures |r| <= |GetCachedItems()|
      ensures forall item :: item in r ==> item in GetCachedItems() && Matches(item, NormalizeQuery(query))
    {
      match allItemsCache
      case None => []
      case Some(cached) =>
        if cached == [] then []
        else Filter(cached, (item: ItemDetail) => Matches(item, NormalizeQuery(query)))
    }

    /** The crafting ingredients of an item: empty when no recipe produces
        it or when any remote call fails; otherwise the join of the first
        recipe's ingredients with the details fetched for their ids. */
    function GetCraftingIngredients(itemId: int): (r: seq<CraftingIngredient>)
      ensures api.recipesByOutput(itemId).Failed? ==> r == []
      ensures api.recipesByOutput(itemId) == Ok([]) ==> r == []
      ensures api.recipesByOutput(itemId).Ok? && api.recipesByOutput(itemId).value != [] ==>
                var recipe := api.recipeById(api.recipesByOutput(itemId).value[0]);
                && (recipe.Failed? ==> r == [])
                && (recipe.Ok? ==>
                      var details := api.itemsByIds(IngredientIds(recipe.value.ingredients));
                      && (details.Failed? ==> r == [])
                      && (details.Ok? ==> r == JoinIngredients(recipe.value.ingredients, details.value)))
    {
      match api.recipesByOutput(itemId)
      case Failed(_) => []
      case Ok(recipeIds) =>
        if recipeIds == [] then []
        else
          match api.recipeById(recipeIds[0])
          case Failed(_) => []
          case Ok(recipe) =>
            match api.itemsByIds(IngredientIds(recipe.ingredients))
            case Failed(_) => []
            case Ok(details) => JoinIngredients(recipe.ingredients, details)
    }
  }

  /** Crafting ingredients are only ever shown for an item some recipe
      produces: a non-empty result means every request succeeded, and it
      has at most one entry per ingredient of the first recipe, each with
      that ingredient's count and the name and icon of a fetched detail
      with that ingredient's id. */
  lemma CraftingIngredientsFromFirstRecipe(repo: ItemRepository, itemId: int)
    ensures var r := repo.GetCraftingIngredients(itemId);
            var recipeIds := repo.api.recipesByOutput(itemId);
            r != [] ==>
              && recipeIds.Ok? && recipeIds.value != []
              && repo.api.recipeById(recipeIds.value[0]).Ok?
              && var ingredients := repo.api.recipeById(recipeIds.value[0]).value.ingredients;
                 && repo.api.itemsByIds(IngredientIds(ingredients)).Ok?
                 && var details := repo.api.itemsByIds(IngredientIds(ingredients)).value;
                    && |r| <= |ingredients|
                    && forall k :: 0 <= k < |r| ==>
                         exists i, j :: 0 <= i < |ingredients| && 0 <= j < |details| &&
                                        details[j].id == ingredients[i].itemId &&
                                        r[k] == CraftingIngredient(details[j].name, details[j].icon, ingredients[i].count)
  {
    var r := repo.GetCraftingIngredients(itemId);
    var recipeIds := repo.api.recipesByOutput(itemId);
    if r != [] {
      var ingredients := repo.api.recipeById(recipeIds.value[0]).value.ingredients;
      var details := repo.api.itemsByIds(IngredientIds(ingredients)).value;
      var idx := JoinPositions(ingredients, details);
      forall k | 0 <= k < |r|
        ensures exists i, j :: 0 <= i < |ingredients| && 0 <= j < |details| &&
                               details[j].id == ingredients[i].itemId &&
                               r[k] == CraftingIngredient(details[j].name, details[j].icon, ingredients[i].count)
      {
        var i := idx[k];
        var j :| FirstDetail(details, ingredients[i].itemId, j) &&
                 r[k] == CraftingIngredient(details[j].name, details[j].icon, ingredients[i].count);
      }
    }
  }

  /** The search result is exactly the subsequence of the cached items that
      satisfy the match rule: `idx` lists their positions in the cache,
      ascending, and holds every position whose item matches. */
  lemma SearchSelectsMatching(repo: ItemRepository, query: string) returns (idx: seq<nat>)
    ensures var cached, r := repo.GetCachedItems(), repo.SearchItemsByName(query);
            && Ascending(idx, |cached|)
            && |r| == |idx|
            && (forall k :: 0 <= k < |idx| ==> r[k] == cached[idx[k]])
            && (forall i :: 0 <= i < |cached| ==> (Matches(cached[i], NormalizeQuery(query)) <==> i in idx))
  {
    var cached := repo.GetCachedItems();
    var p := (item: ItemDetail) => Matches(item, NormalizeQuery(query));
    idx := FilterPositions(cached, p);
    if cached == [] {
      idx := [];
    }
  }

  /** A query that is blank once trimmed matches every cached item. */
  lemma SearchBlankQueryReturnsAll(repo: ItemRepository, query: string)
    requires Trim(query) == []
    ensures repo.SearchItemsByName(query) == repo.GetCachedItems()
  {
    var cached := repo.GetCachedItems();
    var p := (item: ItemDetail) => Matches(item, NormalizeQuery(query));
    assert NormalizeQuery(query) == [];
    forall i | 0 <= i < |cached| ensures p(cached[i]) {
      ContainsEmpty(Lowercase(cached[i].name));
    }
    FilterAll(cached, p);
  }

  /** The search ignores the case of the query and any whitespace around
      it. */
  lemma SearchIgnoresCaseAndPadding(repo: ItemRepository, query: string)
    ensures repo.SearchItemsByName(Lowercase(query)) == repo.SearchItemsByName(query)
    ensures repo.SearchItemsByName(Trim(query)) == repo.SearchItemsByName(query)
  {
    TrimLowercase(query);
    LowercaseIdempotent(Trim(query));
    assert NormalizeQuery(Lowercase(query)) == NormalizeQuery(query);
    TrimIdempotent(query);
    assert NormalizeQuery(Trim(query)) == NormalizeQuery(query);
  }
}
