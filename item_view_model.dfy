/** `ItemViewModel`: the startup preload of the whole catalogue into the
    repository's cache, the search box, and the single-item view. Each
    coroutine body runs here as one sequential method. */
module Items {
  import opened Model
  import opened Api
  import opened Lists
  import opened Text
  import opened Repository
  import opened Preload

  class ItemViewModel {
    const repository: ItemRepository

    var searchQuery: string
    var searchResults: seq<ItemDetail>
    var itemDetail: Option<ItemDetail>
    var craftingIngredients: seq<CraftingIngredient>
    var isLoading: bool
    var loadingProgress: int
    var totalItems: int

    /** Every value assigned to `loadingProgress`, oldest first. */
    ghost var progressLog: seq<int>
    /** Every batch of ids sent to the service, oldest first. */
    ghost var requested: seq<seq<int>>
    /** The value `totalItems` held each time `loadingProgress` was
        assigned, oldest first: the total the loading screen shows beside
        each progress value. */
    ghost var totalLog: seq<int>

    constructor (repository: ItemRepository)
      ensures this.repository == repository
      ensures searchQuery == [] && searchResults == []
      ensures itemDetail == None && craftingIngredients == []
      ensures isLoading && loadingProgress == 0 && totalItems == 0
      ensures progressLog == [] && requested == [] && totalLog == []
    {
      this.repository := repository;
      searchQuery, searchResults := [], [];
      itemDetail, craftingIngredients := None, [];
      isLoading, loadingProgress, totalItems := true, 0, 0;
      progressLog, requested, totalLog := [], [], [];
    }

    /** `loadAllItemsAtStartup`. When the id list arrives, `totalItems`
        becomes its length; the ids are cut into chunks of 200 and fetched in
        order. After each batch, `loadingProgress` is the number of items
        fetched so far, so the values it takes are the running totals of the
        batch sizes. When every batch arrives, the cache becomes their
        concatenation in chunk order; on any failure the cache is left as it
        was. Either way `isLoading` ends false. `totalItems` is set before
        the first batch is requested, so every progress value is shown
        against the number of ids. */
    method LoadAllItemsAtStartup()
      modifies this`isLoading, this`totalItems, this`loadingProgress, this`progressLog, this`requested,
               this`totalLog
      modifies repository
      ensures !isLoading
      ensures repository.api.allItemIds.Failed? ==>
                && totalItems == old(totalItems)
                && loadingProgress == old(loadingProgress) && progressLog == old(progressLog)
                && requested == old(requested) && totalLog == old(totalLog)
                && repository.allItemsCache == old(repository.allItemsCache)
      ensures repository.api.allItemIds.Ok? ==>
                var ids := repository.api.allItemIds.value;
                var chunks := Chunked(ids, BatchSize);
                var run := RunBatches(repository.api.itemsByIds, chunks);
                && totalItems == |ids|
                && requested == old(requested) + Requested(run, chunks)
                && progressLog == old(progressLog) + RunningTotals(run.batches)
                && totalLog == old(totalLog) + Repeat(|ids|, |run.batches|)
                && loadingProgress == (if run.batches == [] then old(loadingProgress) else TotalSize(run.batches))
                && repository.allItemsCache ==
                     (if run.failure.None? then Some(Flatten(run.batches)) else old(repository.allItemsCache))
    {
      var idsFetch := repository.GetAllItemIds();
      if idsFetch.Failed? {
        isLoading := false;
        return;
      }
      var allIds := idsFetch.value;
      totalItems := |allIds|;
      var fullList, complete := FetchBatches(Chunked(allIds, BatchSize));
      if complete {
        repository.CacheAllItems(fullList);
      }
      isLoading := false;
    }

    /** The loop of `loadAllItemsAtStartup`: fetches the chunks in order,
        appending each batch to the full list and showing its length as the
        progress, until a fetch fails. `complete` tells whether every chunk
        was fetched. `totalItems` is read beside each progress value and
        not changed. */
    method FetchBatches(chunks: seq<seq<int>>) returns (fullList: seq<ItemDetail>, complete: bool)
      modifies this`loadingProgress, this`progressLog, this`requested, this`totalLog
      ensures var run := RunBatches(repository.api.itemsByIds, chunks);
              && complete == run.failure.None?
              && fullList == Flatten(run.batches)
              && requested == old(requested) + Requested(run, chunks)
              && progressLog == old(progressLog) + RunningTotals(run.batches)
              && totalLog == old(totalLog) + Repeat(totalItems, |run.batches|)
              && loadingProgress == (if run.batches == [] then old(loadingProgress) else TotalSize(run.batches))
    {
      ghost var fetch := repository.api.itemsByIds;
      ghost var requested0, progressLog0, progress0 := requested, progressLog, loadingProgress;
      ghost var totalLog0 := totalLog;
      ghost var batches: seq<seq<ItemDetail>> := [];
      fullList := [];
      LoopStart(fetch, chunks, requested0, progressLog0, progress0, totalLog0, totalItems);
      var i := 0;
      while i < |chunks|
        invariant LoopState(fetch, chunks, i, batches, requested, progressLog, loadingProgress, totalLog,
                            requested0, progressLog0, progress0, totalLog0, totalItems)
        invariant fullList == Flatten(batches)
      {
        var items := repository.GetItemsByIds(chunks[i]);
        if items.Failed? {
          LoopStepFailed(fetch, chunks, i, batches, requested, progressLog, loadingProgress, totalLog,
                         requested0, progressLog0, progress0, totalLog0, totalItems, items.error);
          requested := requested + [chunks[i]];
          return fullList, false;
        }
        fullList := ShowBatch(fetch, chunks, i, batches, fullList, items.value,
                              requested0, progressLog0, progress0, totalLog0);
        batches := batches + [items.value];
        i := i + 1;
      }
      LoopDone(fetch, chunks, batches, requested, progressLog, loadingProgress, totalLog,
               requested0, progressLog0, progress0, totalLog0, totalItems);
      return fullList, true;
    }

    /** One answered chunk of `loadAllItemsAtStartup`: its items are
        appended to the full list, whose new length is shown as the
        progress beside the unchanged total. */
    method ShowBatch(ghost fetch: seq<int> -> Fetch<seq<ItemDetail>>, chunks: seq<seq<int>>, i: nat,
                     ghost batches: seq<seq<ItemDetail>>, fullList: seq<ItemDetail>, items: seq<ItemDetail>,
                     ghost requested0: seq<seq<int>>, ghost progressLog0: seq<int>, ghost progress0: int,
                     ghost totalLog0: seq<int>)
        returns (grown: seq<ItemDetail>)
      requires LoopState(fetch, chunks, i, batches, requested, progressLog, loadingProgress, totalLog,
                         requested0, progressLog0, progress0, totalLog0, totalItems)
      requires fullList == Flatten(batches)
      requires i < |chunks| && fetch(chunks[i]) == Ok(items)
      modifies this`loadingProgress, this`progressLog, this`requested, this`totalLog
      ensures grown == fullList + items && grown == Flatten(batches + [items])
      ensures loadingProgress == |grown|
      ensures LoopState(fetch, chunks, i + 1, batches + [items], requested, progressLog, loadingProgress, totalLog,
                        requested0, progressLog0, progress0, totalLog0, totalItems)
    {
      TotalSizeIsFlattenLength(batches);
      LoopStepOk(fetch, chunks, i, batches, requested, progressLog, loadingProgress, totalLog,
                 requested0, progressLog0, progress0, totalLog0, totalItems, items);
      FlattenAppend(batches, items);
      requested := requested + [chunks[i]];
      grown := fullList + items;
      loadingProgress := |grown|;
      progressLog := progressLog + [loadingProgress];
      totalLog := totalLog + [totalItems];
    }

    /** `updateSearchQuery`: stores the trimmed query; a query that is
        blank once trimmed clears the results, any other query shows the
        repository's search for it. */
    method UpdateSearchQuery(query: string)
      modifies this
      ensures searchQuery == Trim(query)
      ensures searchResults == (if Trim(query) == [] then [] else repository.SearchItemsByName(query))
      ensures isLoading == old(isLoading) && loadingProgress == old(loadingProgress)
      ensures totalItems == old(totalItems) && progressLog == old(progressLog) && requested == old(requested)
      ensures totalLog == old(totalLog)
      ensures itemDetail == old(itemDetail) && craftingIngredients == old(craftingIngredients)
    {
      searchQuery := Trim(query);
      SearchTrimmedQuery(repository, query);
      if IsBlank(searchQuery) {
        searchResults := [];
      } else {
        searchResults := repository.SearchItemsByName(searchQuery);
      }
    }

    /** `loadItemById`: shows the fetched item and then its crafting
        ingredients. The item fetch is not guarded, so when it fails the
        coroutine stops there (`completed` is false) and nothing changes. */
    method LoadItemById(itemId: int) returns (completed: bool)
      modifies this
      ensures completed <==> repository.api.itemById(itemId).Ok?
      ensures completed ==> itemDetail == Some(repository.api.itemById(itemId).value)
      ensures completed ==> craftingIngredients == repository.GetCraftingIngredients(itemId)
      ensures !completed ==> itemDetail == old(itemDetail) && craftingIngredients == old(craftingIngredients)
      ensures searchQuery == old(searchQuery) && searchResults == old(searchResults)
      ensures isLoading == old(isLoading) && loadingProgress == old(loadingProgress)
      ensures totalItems == old(totalItems) && progressLog == old(progressLog) && requested == old(requested)
      ensures totalLog == old(totalLog)
    {
      var item := repository.GetItemById(itemId);
      if item.Failed? {
        return false;
      }
      itemDetail := Some(item.value);
      craftingIngredients := repository.GetCraftingIngredients(itemId);
      return true;
    }
  }

  /** The view model's blank test on the trimmed query is the empty test,
      and searching for the trimmed query is searching for the query. */
  lemma SearchTrimmedQuery(repo: ItemRepository, query: string)
    ensures IsBlank(Trim(query)) <==> Trim(query) == []
    ensures repo.SearchItemsByName(Trim(query)) == repo.SearchItemsByName(query)
  {
    TrimIdempotent(query);
    BlankIffTrimEmpty(Trim(query));
    SearchIgnoresCaseAndPadding(repo, query);
  }

  /** The progress shown during one preload never goes down and never
      exceeds the final count. */
  lemma PreloadProgressNonDecreasing(api: Gw2Api)
    requires api.allItemIds.Ok?
    ensures var run := RunBatches(api.itemsByIds, Chunked(api.allItemIds.value, BatchSize));
            var log := RunningTotals(run.batches);
            && (forall j, k :: 0 <= j <= k < |log| ==> log[j] <= log[k])
            && (forall k :: 0 <= k < |log| ==> log[k] == |Flatten(run.batches[..k + 1])|)
            && (forall k :: 0 <= k < |log| ==> log[k] <= |Flatten(run.batches)|)
  {
    var run := RunBatches(api.itemsByIds, Chunked(api.allItemIds.value, BatchSize));
    RunningTotalsNonDecreasing(run.batches);
    TotalSizeIsFlattenLength(run.batches);
    forall k | 0 <= k < |run.batches|
      ensures RunningTotals(run.batches)[k] == |Flatten(run.batches[..k + 1])|
    {
      RunningTotalsAt(run.batches, k);
      TotalSizeIsFlattenLength(run.batches[..k + 1]);
    }
  }

  /** The chunks of a preload are non-empty, hold at most 200 ids each and
      concatenate back to the id list; against a service that returns one
      item per id, a preload that completes caches exactly as many items as
      there are ids, so the progress reaches `totalItems`. */
  lemma PreloadChunksPartitionIds(api: Gw2Api)
    requires api.allItemIds.Ok?
    requires forall c :: api.itemsByIds(c).Ok? ==> |api.itemsByIds(c).value| == |c|
    ensures var chunks := Chunked(api.allItemIds.value, BatchSize);
            && Flatten(chunks) == api.allItemIds.value
            && (forall k :: 0 <= k < |chunks| ==> 0 < |chunks[k]| <= BatchSize)
            && (RunBatches(api.itemsByIds, chunks).failure.None? ==>
                  |Flatten(RunBatches(api.itemsByIds, chunks).batches)| == |api.allItemIds.value|)
  {
    var chunks := Chunked(api.allItemIds.value, BatchSize);
    var run := RunBatches(api.itemsByIds, chunks);
    if run.failure.None? {
      CompleteRunCountsEveryId(api.itemsByIds, chunks);
      TotalSizeIsFlattenLength(run.batches);
    }
  }
}
