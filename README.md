# GW2 item catalogue client: a Dafny model

This project models the logic core of an Android client for the Guild Wars 2
item catalogue. The core consists of:

- the item repository, with its in-memory cache of the catalogue, its local
  search and its crafting-ingredient join;
- the two preload loops that fetch the catalogue in batches of 200 ids while
  showing a progress counter (the startup preload of `ItemViewModel` and the
  capped splash preload of `SplashViewModel`);
- the detail screen's `Loading` / `Success` / `Error` state machine;
- the favourites screen's load and toggle;
- the session record.

What the code relies on is proved about the model: the search returns exactly
the matching cached items, in order, and ignores case and surrounding
whitespace; the join keeps recipe order and drops ingredients without a
detail; the chunks partition the ids; the progress counters are the running
totals of the batch sizes and never go down; the splash preload sends at most
2000 ids; a failure stops the loop without touching the cache; the detail
screen never ends in `Loading` and never shows a null ingredient list; a
toggle flips the item's membership in the store.

Modules, one file each:

| file | module | models |
|---|---|---|
| `model.dfy` | `Model` | the JSON records, nullable values (`Option`), thrown exceptions (`Fetch`) |
| `api.dfy` | `Api` | the remote service (`Gw2Api`) as a snapshot: one outcome per request |
| `text.dfy` | `Text` | `trim`, `isBlank`, `lowercase`, `contains` |
| `lists.dfy` | `Lists` | `map`, `filter`, `mapNotNull`, `find`, `chunked`, `take`, and the batch totals |
| `preload.dfy` | `Preload` | a run of batch requests that stops at the first failure |
| `repository.dfy` | `Repository` | `ItemRepository` |
| `item_view_model.dfy` | `Items` | `ItemViewModel` |
| `splash_view_model.dfy` | `Splash` | `SplashViewModel` |
| `detail_view_model.dfy` | `Detail` | `DetailViewModel` |
| `favorites.dfy` | `Favorites` | `FavoritesRepository` and `FavoritesViewModel` |
| `session_manager.dfy` | `Session` | `SessionManager` |

Each view model is a class whose fields are its `StateFlow` values. Each
coroutine body is a method that runs to completion. Ghost fields record every
value a counter or state took (`progressLog`, `countLog`, `stateLog`), the
total shown beside each counter value (`totalLog`) and every batch of ids
sent (`requested`), so contracts can speak about the whole
sequence of emitted values. Thrown exceptions are values: a remote call
returns `Ok(value)` or `Failed(exception)`, and a method that the source lets
throw reports how it ended.

## Model

All source paths are under `app/src/main/java/com/example/gw2/`.

| member | source | states |
|---|---|---|
| Text.Trim | app/src/main/java/com/example/gw2/data/repository/ItemRepository.kt:48 | the trimmed query is the slice of the input after its leading whitespace, only whitespace follows it, and it neither starts nor ends with whitespace |
| Text.TrimIdempotent | app/src/main/java/com/example/gw2/utils/ItemViewModel.kt:84-91 | trimming the stored, already trimmed query again changes nothing |
| Text.BlankIffTrimEmpty | app/src/main/java/com/example/gw2/utils/ItemViewModel.kt:84-88 | a string is blank exactly when trimming it leaves the empty string |
| Text.LowercaseIdempotent | app/src/main/java/com/example/gw2/data/repository/ItemRepository.kt:48 | lower-casing an already lower-cased query changes nothing |
| Text.TrimLowercase | app/src/main/java/com/example/gw2/data/repository/ItemRepository.kt:48 | trimming and lower-casing commute |
| Text.ContainsEmpty | app/src/main/java/com/example/gw2/data/repository/ItemRepository.kt:50-52 | every string contains the empty query |
| Lists.Filter | app/src/main/java/com/example/gw2/data/repository/ItemRepository.kt:49-53 | `filter` returns no more elements than it was given, each one from the input and satisfying the predicate |
| Lists.FilterPositions | app/src/main/java/com/example/gw2/data/repository/ItemRepository.kt:49-53 | `filter` returns the subsequence at ascending positions that holds exactly the positions satisfying the predicate |
| Lists.FilterAll | app/src/main/java/com/example/gw2/data/repository/ItemRepository.kt:49-53 | a predicate that holds everywhere keeps the whole list |
| Lists.MapNotNull | app/src/main/java/com/example/gw2/data/repository/ItemRepository.kt:83-92 | `mapNotNull` never returns more elements than it was given |
| Lists.MapNotNullPositions | app/src/main/java/com/example/gw2/data/repository/ItemRepository.kt:83-92 | `mapNotNull` returns, in input order, exactly the non-null images |
| Lists.Find | app/src/main/java/com/example/gw2/data/repository/ItemRepository.kt:84 | `find` is null exactly when no element matches, and otherwise returns the first match |
| Lists.Chunked | app/src/main/java/com/example/gw2/utils/ItemViewModel.kt:55 | the chunks concatenate back to the ids, none is empty, none holds more than 200, and only the last may hold fewer |
| Lists.FlattenTakeChunked | app/src/main/java/com/example/gw2/utils/SplashViewModel.kt:40 | the first `k` chunks of size `n` hold exactly the first `min(size, n*k)` elements |
| Lists.TotalSizeIsFlattenLength | app/src/main/java/com/example/gw2/utils/ItemViewModel.kt:61-63 | the size of the accumulated list is the sum of the batch sizes |
| Lists.RunningTotalsAt | app/src/main/java/com/example/gw2/utils/ItemViewModel.kt:61-63 | the progress value after batch `k` counts the items of the first `k + 1` batches |
| Lists.RunningTotalsNonDecreasing | app/src/main/java/com/example/gw2/utils/ItemViewModel.kt:61-63 | the progress values never go down and never exceed the final count |
| Preload.RunBatches | app/src/main/java/com/example/gw2/utils/ItemViewModel.kt:58-64 | a run without failure answered every chunk; a failed run returned fewer batches than there are chunks |
| Preload.RunBatchesFetched | app/src/main/java/com/example/gw2/utils/ItemViewModel.kt:58-64 | batch `k` is the service's answer for chunk `k`, and a failure is the answer for the chunk right after the last batch |
| Preload.RunFailureIsFinal | app/src/main/java/com/example/gw2/utils/ItemViewModel.kt:58-68 | once a request throws, no later chunk changes the outcome |
| Preload.RequestedIdsPrefix | app/src/main/java/com/example/gw2/utils/SplashViewModel.kt:44-46 | the ids sent, taken together, are a prefix of the ids of all chunks |
| Preload.CompleteRunCountsEveryId | app/src/main/java/com/example/gw2/utils/ItemViewModel.kt:58-67 | against a service that answers one item per id, a complete run returns as many items as there are ids |
| Preload.SplashChunksCapped | app/src/main/java/com/example/gw2/utils/SplashViewModel.kt:40 | the splash work list has at most 10 chunks of 1 to 200 ids, which together are the first `min(size, 2000)` ids |
| Repository.JoinPositions | app/src/main/java/com/example/gw2/data/repository/ItemRepository.kt:79-92 | the join keeps recipe order and exactly the ingredients that have a fetched detail; each entry has that ingredient's count and the name and icon of the first detail with its id |
| Repository.ItemRepository.constructor | app/src/main/java/com/example/gw2/data/repository/ItemRepository.kt:14 | a new repository has no cache, and its cached list reads as empty |
| Repository.ItemRepository.CacheAllItems | app/src/main/java/com/example/gw2/data/repository/ItemRepository.kt:17-24 | after caching, the cached list is exactly the given list |
| Repository.ItemRepository.GetCachedItems | app/src/main/java/com/example/gw2/data/repository/ItemRepository.kt:22-24 | reading the cache never fails: it gives the cached list, or the empty list before anything was cached |
| Repository.ItemRepository.SearchItemsByName | app/src/main/java/com/example/gw2/data/repository/ItemRepository.kt:43-55 | with no cache or an empty cache the result is empty whatever the query; every result is a cached item that matches the normalized query |
| Repository.SearchSelectsMatching | app/src/main/java/com/example/gw2/data/repository/ItemRepository.kt:48-53 | the result is exactly the subsequence of the cache that matches, in cache order |
| Repository.SearchBlankQueryReturnsAll | app/src/main/java/com/example/gw2/data/repository/ItemRepository.kt:48-53 | a query that is blank once trimmed returns the whole cache |
| Repository.SearchIgnoresCaseAndPadding | app/src/main/java/com/example/gw2/data/repository/ItemRepository.kt:48 | the lower-cased query and the trimmed query give the same result as the query |
| Repository.ItemRepository.GetCraftingIngredients | app/src/main/java/com/example/gw2/data/repository/ItemRepository.kt:69-97 | the result is empty when any of the three requests throws or no recipe produces the item; otherwise it is the join of the first recipe's ingredients with the details fetched for their ids |
| Repository.CraftingIngredientsFromFirstRecipe | app/src/main/java/com/example/gw2/data/repository/ItemRepository.kt:72-92 | a non-empty ingredient list means that every request succeeded; it has no more entries than the first recipe has ingredients, and each entry has the count of one of them and the name and icon of a fetched detail with that ingredient's id |
| Items.ItemViewModel.constructor | app/src/main/java/com/example/gw2/utils/ItemViewModel.kt:16-39 | the initial values: empty query and results, no item, no ingredients, loading, counters at 0 |
| Items.ItemViewModel.LoadAllItemsAtStartup | app/src/main/java/com/example/gw2/utils/ItemViewModel.kt:47-76 | loading always ends; `totalItems` is the number of ids, and it is already set when each progress value is shown, so every value is shown against that total; the progress values are the running totals of the batch sizes; the cache becomes all fetched items, in chunk order, only when every batch arrived and is left alone on any failure |
| Items.ItemViewModel.FetchBatches | app/src/main/java/com/example/gw2/utils/ItemViewModel.kt:58-64 | the loop fetches the chunks in order up to and including the first failure; the full list is the concatenation of the batches; the progress shows each new size, each time beside `totalItems`, which the loop does not change |
| Items.ItemViewModel.ShowBatch | app/src/main/java/com/example/gw2/utils/ItemViewModel.kt:59-63 | an answered chunk is recorded as sent, its items are appended to the full list, and the new length is shown as the progress beside the unchanged total |
| Items.ItemViewModel.UpdateSearchQuery | app/src/main/java/com/example/gw2/utils/ItemViewModel.kt:83-95 | the stored query is the trimmed query; a blank one clears the results, any other shows the repository's search; nothing else changes |
| Items.ItemViewModel.LoadItemById | app/src/main/java/com/example/gw2/utils/ItemViewModel.kt:101-111 | the load completes exactly when the item request succeeds; it then shows the item and its crafting ingredients, and otherwise nothing changes |
| Items.SearchTrimmedQuery | app/src/main/java/com/example/gw2/utils/ItemViewModel.kt:84-91 | the blank test on the trimmed query is the empty test, and searching for the trimmed query is searching for the query |
| Items.PreloadProgressNonDecreasing | app/src/main/java/com/example/gw2/utils/ItemViewModel.kt:58-64 | during one preload the progress never goes down, and each value is the size of the items fetched so far |
| Items.PreloadChunksPartitionIds | app/src/main/java/com/example/gw2/utils/ItemViewModel.kt:51-67 | the chunks partition the ids; with one item per id, a complete preload caches as many items as there are ids |
| Splash.SplashViewModel.constructor | app/src/main/java/com/example/gw2/utils/SplashViewModel.kt:19-26 | both counts start at 0 and loading is not complete |
| Splash.SplashViewModel.LoadAllItems | app/src/main/java/com/example/gw2/utils/SplashViewModel.kt:31-64 | `totalCount` is the number of ids, and it is already set when each count is shown (the `X / Y` of `LoadingScreen.kt:49`); only the first ten chunks are fetched; the count takes the running totals; loading is marked complete on success and on any failure except a cancellation, which is rethrown; the cache is never touched |
| Splash.SplashViewModel.CountBatches | app/src/main/java/com/example/gw2/utils/SplashViewModel.kt:43-50 | the loop fetches the chunks in order up to the first failure, counting each batch's items and showing the running count, each time beside `totalCount`, which the loop does not change |
| Splash.SplashViewModel.CountBatch | app/src/main/java/com/example/gw2/utils/SplashViewModel.kt:45-48 | an answered chunk is recorded as sent and its size is added to `processed`, which is shown as the count beside the unchanged total |
| Splash.SplashCountNonDecreasing | app/src/main/java/com/example/gw2/utils/SplashViewModel.kt:43-48 | the count never goes down, and each value is the number of items of the batches so far |
| Splash.SplashRequestsFirstIds | app/src/main/java/com/example/gw2/utils/SplashViewModel.kt:40-46 | at most ten requests of at most 200 ids are sent, and together they are a prefix of the first 2000 ids |
| Splash.SplashFinalCount | app/src/main/java/com/example/gw2/utils/SplashViewModel.kt:35-48 | with one item per id, a complete splash preload counts `min(ids, 2000)` items, so with more than 2000 ids the count stays below `totalCount` |
| Detail.ErrorText | app/src/main/java/com/example/gw2/utils/DetailViewModel.kt:58 | the error text is the exception's message, or "Error desconocido" when it has none |
| Detail.LoadOutcome | app/src/main/java/com/example/gw2/utils/DetailViewModel.kt:40-60 | a load never ends in `Loading`; it ends in `Error` exactly when the item request throws; a `Success` holds the fetched item and a non-null ingredient list, which is the recipe's ingredients or empty when the recipe request throws |
| Detail.DetailViewModel.constructor | app/src/main/java/com/example/gw2/utils/DetailViewModel.kt:29 | the initial state is `Loading` |
| Detail.DetailViewModel.LoadItemById | app/src/main/java/com/example/gw2/utils/DetailViewModel.kt:37-62 | every load first shows `Loading`, then the outcome of the item request and of the recipe request made with the same id |
| Favorites.FavoritesStore.AddFavorite | app/src/main/java/com/example/gw2/data/repository/FavoriteRepository.kt:15-21 | with a user signed in, the item's document is written with the given time; without one, the call throws and writes nothing |
| Favorites.FavoritesStore.RemoveFavorite | app/src/main/java/com/example/gw2/data/repository/FavoriteRepository.kt:24-30 | with a user signed in, the item's document is deleted; without one, the call throws and deletes nothing |
| Favorites.FavoritesStore.GetFavoriteIds | app/src/main/java/com/example/gw2/data/repository/FavoriteRepository.kt:33-41 | without a user, or when the read fails, the call throws; otherwise it lists every stored id exactly once |
| Favorites.ListOnce | app/src/main/java/com/example/gw2/data/repository/FavoriteRepository.kt:40 | the listing of the stored documents names every stored id and no other, each exactly once |
| Favorites.Shown | app/src/main/java/com/example/gw2/utils/FavoritesViewModel.kt:24-38 | the favourites shown are empty on any failure or when nothing is stored, and otherwise are the items fetched for the stored ids |
| Favorites.ToggledDocs | app/src/main/java/com/example/gw2/utils/FavoritesViewModel.kt:41-46 | a toggle removes the item when its id is on screen and adds it with the current time otherwise; every other document is unchanged |
| Favorites.FavoritesViewModel.constructor | app/src/main/java/com/example/gw2/utils/FavoritesViewModel.kt:21 | the favourites start empty |
| Favorites.FavoritesViewModel.LoadFavorites | app/src/main/java/com/example/gw2/utils/FavoritesViewModel.kt:24-38 | the screen shows the items of the stored ids, or nothing when the store or the request fails |
| Favorites.FavoritesViewModel.ToggleFavorite | app/src/main/java/com/example/gw2/utils/FavoritesViewModel.kt:40-48 | the store is toggled by what is on screen, then the list is reloaded; when the store throws (no user) there is no reload and nothing changes |
| Favorites.ToggleFlipsMembership | app/src/main/java/com/example/gw2/utils/FavoritesViewModel.kt:41-46 | when the screen shows exactly the stored favourites, a toggle flips the item's membership and keeps the others |
| Favorites.ToggleTwiceRestores | app/src/main/java/com/example/gw2/utils/FavoritesViewModel.kt:40-48 | toggling the same item twice, in step with the store, gives back the original favourites |
| Favorites.ReloadShowsStore | app/src/main/java/com/example/gw2/utils/FavoritesViewModel.kt:47 | after a reload against a service that answers the requested ids in order, the screen shows exactly the stored favourites |
| Session.SessionManager.constructor | app/src/main/java/com/example/gw2/utils/SessionManager.kt:10-12 | initially there is no user id, no e-mail, and the session is not a guest |
| Session.SessionManager.Clear | app/src/main/java/com/example/gw2/utils/SessionManager.kt:14-18 | clearing restores the initial state from any state, so clearing twice is clearing once |
| Session.SessionManager.SignIn | app/src/main/java/com/example/gw2/presentation/auth/LoginScreen.kt:74-76 | a signed-in account records its id and e-mail and leaves guest mode |
| Session.SessionManager.ContinueAsGuest | app/src/main/java/com/example/gw2/presentation/auth/LoginScreen.kt:263-264 | continuing without an account clears the session and enters guest mode |

## Left out

- The Compose screens, components and navigation are UI. So are the factories that build the view models and the login-state test of the navigation bar.
- Retrofit and Firebase are outside the model. The remote service is a fixed snapshot (`Gw2Api`): each request always gets the same answer. Network errors, timeouts and JSON decoding are folded into `Failed`.
- Concurrency is not modelled. Each `viewModelScope.launch` body runs to completion as one method, with no interleaving. In particular, the store writes in `toggleFavorite` are fire-and-forget and may race the reload; the model applies each write before the reload.
- Logging (`Log.d`, `printStackTrace`) and the `withContext` dispatcher switches have no effect on the model.
- `HomeViewModel` is not part of this model.
- The ids of a batch request are passed as a list. The comma-separated `joinToString(",")` encoding is left out. The splash loop in fact passes the list itself (`SplashViewModel.kt:46`), where the repository expects a string.
- The repository calls a recipe-search endpoint by output item (`getRecipeByOutputItemId`) that the service interface does not declare. It also calls `getRecipeById` with a string and takes `.first()` of the result, where the interface takes an id and returns one recipe. The model follows the interface: `recipesByOutput` gives the recipe ids, and the first id is fetched as one recipe.
- The definition of `CraftingIngredient` is not part of this model. It is modelled as the name, icon and count that the repository builds (`ItemRepository.kt:86-90`).
- `Recipe` and `Ingredient` (`data/model/Recipe.kt`) are not used by the core and are left out.
- Text.Trim: whitespace covers only the ASCII whitespace and separator characters that Kotlin's `isWhitespace` accepts. Unicode spaces above U+007F are not trimmed.
- Text.LowercaseIdempotent: lower-casing maps only `A`-`Z`. Kotlin's locale-independent Unicode lower-casing is not modelled, so results over non-ASCII names may differ.
- Favorites.FavoritesStore.GetFavoriteIds: the stored ids are listed each exactly once but in no fixed order. The store's ordering by timestamp is not modelled.
- Favorites.FavoritesStore.GetFavoriteIds: document names that do not parse as integers (`toIntOrNull` dropping them) cannot occur, because the model's documents are keyed by item id.
- The split of the favourites collection by user is left out. The store holds the signed-in user's documents, and `signedIn` says whether there is a user.
- `System.currentTimeMillis()` is the `now` parameter of the add and toggle operations.
- Cancellation: `ItemViewModel`, `DetailViewModel`, `FavoritesViewModel` and the repository catch every `Exception`, a `CancellationException` included, so the model treats cancellation there like any other failure. Only `SplashViewModel` rethrows it.
- The uncaught exception that ends `toggleFavorite` when no user is signed in, and the one that ends `ItemViewModel.loadItemById` when the item request throws, would surface as a crash of the coroutine's scope. The model records only that the coroutine stopped early, with its state unchanged.
