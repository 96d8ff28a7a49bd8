/** `SplashViewModel`: the splash screen's preload. It cuts the id list
    into 200-id chunks, keeps only the first ten, and fetches them in order
    only to count the items; nothing it fetches is stored. */
module Splash {
  import opened Model
  import opened Api
  import opened Lists
  import opened Repository
  import opened Preload

  class SplashViewModel {
    const repository: ItemRepository

    var totalCount: int
    var currentCount: int
    var isLoadingComplete: bool

    /** Every value assigned to `currentCount`, oldest first. */
    ghost var countLog: seq<int>
    /** Every batch of ids sent to the service, oldest first. */
    ghost var requested: seq<seq<int>>
    /** The value `totalCount` held each time `currentCount` was assigned,
        oldest first: the `Y` the loading screen shows beside each `X`. */
    ghost var totalLog: seq<int>

    constructor (repository: ItemRepository)
      ensures this.repository == repository
      ensures totalCount == 0 && currentCount == 0 && !isLoadingComplete
      ensures countLog == [] && requested == [] && totalLog == []
    {
      this.repository := repository;
      totalCount, currentCount, isLoadingComplete := 0, 0, false;
      countLog, requested, totalLog := [], [], [];
    }

    /** `loadAllItems`. When the id list arrives, `totalCount` becomes its
        length; the first ten chunks are fetched in order and `currentCount`
        takes the running totals of the batch sizes. The coroutine ends in
        one of three ways: every chunk fetched, where `isLoadingComplete`
        becomes true; an ordinary failure, where it becomes true as well; or
        a cancellation, which is rethrown (`rethrown` is true) and leaves
        `isLoadingComplete` as it was. The repository's cache is never
        touched. `totalCount` is set before the first chunk is requested, so
        every count is shown against the number of ids. */
    method LoadAllItems() returns (rethrown: bool)
      modifies this`totalCount, this`currentCount, this`isLoadingComplete, this`countLog, this`requested,
               this`totalLog
      ensures repository.allItemsCache == old(repository.allItemsCache)
      ensures isLoadingComplete == (if rethrown then old(isLoadingComplete) else true)
      ensures repository.api.allItemIds.Failed? ==>
                && rethrown == repository.api.allItemIds.error.isCancellation
                && totalCount == old(totalCount) && currentCount == old(currentCount)
                && countLog == old(countLog) && requested == old(requested) && totalLog == old(totalLog)
      ensures repository.api.allItemIds.Ok? ==>
                var ids := repository.api.allItemIds.value;
                var chunks := Take(Chunked(ids, BatchSize), SplashBatchLimit);
                var run := RunBatches(repository.api.itemsByIds, chunks);
                && rethrown == (run.failure.Some? && run.failure.value.isCancellation)
                && totalCount == |ids|
                && requested == old(requested) + Requested(run, chunks)
                && countLog == old(countLog) + RunningTotals(run.batches)
                && totalLog == old(totalLog) + Repeat(|ids|, |run.batches|)
                && currentCount == (if run.batches == [] then old(currentCount) else TotalSize(run.batches))
    {
      var idsFetch := repository.GetAllItemIds();
      if idsFetch.Failed? {
        if idsFetch.error.isCancellation {
          return true;
        }
        isLoadingComplete := true;
        return false;
      }
      var allIds := idsFetch.value;
      totalCount := |allIds|;
      var failure := CountBatches(Take(Chunked(allIds, BatchSize), SplashBatchLimit));
      if failure.Some? && failure.value.isCancellation {
        return true;
      }
      isLoadingComplete := true;
      return false;
    }

    /** The loop of `loadAllItems`: fetches the chunks in order, adding each
        batch's size to the running count and showing it, until a fetch
        throws; `failure` is what it threw. `totalCount` is read beside each
        count and not changed. */
    method CountBatches(chunks: seq<seq<int>>) returns (failure: Option<Exception>)
      modifies this`currentCount, this`countLog, this`requested, this`totalLog
      ensures var run := RunBatches(repository.api.itemsByIds, chunks);
              && failure == run.failure
              && requested == old(requested) + Requested(run, chunks)
              && countLog == old(countLog) + RunningTotals(run.batches)
              && totalLog == old(totalLog) + Repeat(totalCount, |run.batches|)
              && currentCount == (if run.batches == [] then old(currentCount) else TotalSize(run.batches))
    {
      ghost var fetch := repository.api.itemsByIds;
      ghost var requested0, countLog0, count0 := requested, countLog, currentCount;
      ghost var totalLog0 := totalLog;
      ghost var batches: seq<seq<ItemDetail>> := [];
      LoopStart(fetch, chunks, requested0, countLog0, count0, totalLog0, totalCount);
      var processed := 0;
      var i := 0;
      while i < |chunks|
        invariant LoopState(fetch, chunks, i, batches, requested, countLog, currentCount, totalLog,
                            requested0, countLog0, count0, totalLog0, totalCount)
        invariant processed == TotalSize(batches)
      {
        var items := repository.GetItemsByIds(chunks[i]);
        if items.Failed? {
          LoopStepFailed(fetch, chunks, i, batches, requested, countLog, currentCount, totalLog,
                         requested0, countLog0, count0, totalLog0, totalCount, items.error);
          requested := requested + [chunks[i]];
          return Some(items.error);
        }
        processed := CountBatch(fetch, chunks, i, batches, processed, items.value,
                                requested0, countLog0, count0, totalLog0);
        batches := batches + [items.value];
        i := i + 1;
      }
      LoopDone(fetch, chunks, batches, requested, countLog, currentCount, totalLog,
               requested0, countLog0, count0, totalLog0, totalCount);
      return None;
    }

    /** One answered chunk of `loadAllItems`: its size is added to
        `processed`, which is shown as the count beside the unchanged
        total. */
    method CountBatch(ghost fetch: seq<int> -> Fetch<seq<ItemDetail>>, chunks: seq<seq<int>>, i: nat,
                      ghost batches: seq<seq<ItemDetail>>, processed: int, items: seq<ItemDetail>,
                      ghost requested0: seq<seq<int>>, ghost countLog0: seq<int>, ghost count0: int,
                      ghost totalLog0: seq<int>)
        returns (counted: int)
      requires LoopState(fetch, chunks, i, batches, requested, countLog, currentCount, totalLog,
                         requested0, countLog0, count0, totalLog0, totalCount)
      requires processed == TotalSize(batches)
      requires i < |chunks| && fetch(chunks[i]) == Ok(items)
      modifies this`currentCount, this`countLog, this`requested, this`totalLog
      ensures counted == processed + |items| && counted == TotalSize(batches + [items])
      ensures currentCount == counted
      ensures LoopState(fetch, chunks, i + 1, batches + [items], requested, countLog, currentCount, totalLog,
                        requested0, countLog0, count0, totalLog0, totalCount)
    {
      LoopStepOk(fetch, chunks, i, batches, requested, countLog, currentCount, totalLog,
                 requested0, countLog0, count0, totalLog0, totalCount, items);
      RunningTotalsAppend(batches, items);
      requested := requested + [chunks[i]];
      counted := processed + |items|;
      currentCount := counted;
      countLog := countLog + [currentCount];
      totalLog := totalLog + [totalCount];
    }
  }

  /** The counts shown during one splash preload never go down, and each is
      the number of items in the batches fetched so far. */
  lemma SplashCountNonDecreasing(api: Gw2Api)
    requires api.allItemIds.Ok?
    ensures var run := RunBatches(api.itemsByIds, Take(Chunked(api.allItemIds.value, BatchSize), SplashBatchLimit));
            var log := RunningTotals(run.batches);
            && (forall j, k :: 0 <= j <= k < |log| ==> log[j] <= log[k])
            && (forall k :: 0 <= k < |log| ==> log[k] == |Flatten(run.batches[..k + 1])|)
  {
    var run := RunBatches(api.itemsByIds, Take(Chunked(api.allItemIds.value, BatchSize), SplashBatchLimit));
    RunningTotalsNonDecreasing(run.batches);
    forall k | 0 <= k < |run.batches|
      ensures RunningTotals(run.batches)[k] == |Flatten(run.batches[..k + 1])|
    {
      RunningTotalsAt(run.batches, k);
      TotalSizeIsFlattenLength(run.batches[..k + 1]);
    }
  }

  /** The ids the splash preload sends, taken together, are a prefix of the
      first 2000 ids: at most ten requests of at most 200 ids each. */
  lemma SplashRequestsFirstIds(api: Gw2Api)
    requires api.allItemIds.Ok?
    ensures var ids := api.allItemIds.value;
            var chunks := Take(Chunked(ids, BatchSize), SplashBatchLimit);
            var sent := Requested(RunBatches(api.itemsByIds, chunks), chunks);
            && |sent| <= SplashBatchLimit
            && (forall k :: 0 <= k < |sent| ==> 0 < |sent[k]| <= BatchSize)
            && Flatten(sent) <= ids[..Min(|ids|, 2000)]
  {
    var ids := api.allItemIds.value;
    var chunks := Take(Chunked(ids, BatchSize), SplashBatchLimit);
    SplashChunksCapped(ids);
    RequestedIdsPrefix(api.itemsByIds, chunks);
  }

  /** Against a service that returns one item per id, a splash preload that
      completes counts `min(|ids|, 2000)` items: with more than 2000 ids the
      final count stays below `totalCount`. */
  lemma SplashFinalCount(api: Gw2Api)
    requires api.allItemIds.Ok?
    requires forall c :: api.itemsByIds(c).Ok? ==> |api.itemsByIds(c).value| == |c|
    ensures var ids := api.allItemIds.value;
            var run := RunBatches(api.itemsByIds, Take(Chunked(ids, BatchSize), SplashBatchLimit));
            run.failure.None? ==>
              && TotalSize(run.batches) == Min(|ids|, 2000)
              && (|ids| > 2000 ==> TotalSize(run.batches) < |ids|)
  {
    var ids := api.allItemIds.value;
    var chunks := Take(Chunked(ids, BatchSize), SplashBatchLimit);
    SplashChunksCapped(ids);
    if RunBatches(api.itemsByIds, chunks).failure.None? {
      CompleteRunCountsEveryId(api.itemsByIds, chunks);
    }
  }
}
