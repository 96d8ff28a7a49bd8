/** The remote Guild Wars 2 REST API as the client sees it. Each endpoint is a
    total function from its request to an outcome that is either the decoded
    response or a thrown exception; the model takes one snapshot of the
    service, so the same request always gets the same answer. */
module Api {
  import opened Model

  datatype Gw2Api = Gw2Api(
    /** `GET v2/items`: every item id. */
    allItemIds: Fetch<seq<int>>,
    /** `GET v2/items?ids=…`: the items for a batch of ids (the ids are sent
        comma-separated; the model passes the list itself). */
    itemsByIds: seq<int> -> Fetch<seq<ItemDetail>>,
    /** `GET v2/items?id=…`: one item. */
    itemById: int -> Fetch<ItemDetail>,
    /** `GET v2/recipes/{id}`: one recipe. */
    recipeById: int -> Fetch<RecipeResponse>,
    /** The ids of the recipes whose output is the given item (the recipe
        search by output item that the repository relies on). */
    recipesByOutput: int -> Fetch<seq<int>>)
}
