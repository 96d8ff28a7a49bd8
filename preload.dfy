/** What the two preload loops share: the ids are cut into batches of at
    most 200, the batches are fetched one after another, and the first
    failure ends the run. */
module Preload {
  import opened Model
  import opened Lists

  /** The most ids one `v2/items?ids=` request carries. */
  const BatchSize: nat := 200

  /** How many batches the splash screen loads at most. */
  const SplashBatchLimit: nat := 10

  /** The outcome of fetching batches in order: the item lists returned
      before the first failure, and that failure if there was one. */
  datatype BatchRun = BatchRun(batches: seq<seq<ItemDetail>>, failure: Option<Exception>)

  /** Fetches `chunks` in order and stops at the first failure. A run
      without failure fetched every chunk; a failed run stopped before the
      end. */
  function RunBatches(fetch: seq<int> -> Fetch<seq<ItemDetail>>, chunks: seq<seq<int>>): (run: BatchRun)
    ensures run.failure.None? ==> |run.batches| == |chunks|
    ensures run.failure.Some? ==> |run.batches| < |chunks|
    decreases |chunks|
  {
    if chunks == [] then BatchRun([], None)
    else
      var prev := RunBatches(fetch, chunks[..|chunks| - 1]);
      if prev.failure.Some? then prev
      else
        match fetch(chunks[|chunks| - 1])
        case Failed(e) => BatchRun(prev.batches, Some(e))
        case Ok(items) => BatchRun(prev.batches + [items], None)
  }

  /** What a run holds: batch `k` is what the service returned for chunk
      `k`, and a failed run failed on the chunk right after its last
      batch. */
  lemma {:induction false} RunBatchesFetched(fetch: seq<int> -> Fetch<seq<ItemDetail>>, chunks: seq<seq<int>>)
    ensures var run := RunBatches(fetch, chunks);
            && (forall k :: 0 <= k < |run.batches| ==> fetch(chunks[k]) == Ok(run.batches[k]))
            && (run.failure.Some? ==> fetch(chunks[|run.batches|]) == Failed(run.failure.value))
    decreases |chunks|
  {
    if chunks != [] {
      var init := chunks[..|chunks| - 1];
      RunBatchesFetched(fetch, init);
      assert forall k :: 0 <= k < |init| ==> init[k] == chunks[k];
    }
  }

  /** The chunks a run sends: every chunk that returned a batch, and the
      chunk that failed. */
  function Requested(run: BatchRun, chunks: seq<seq<int>>): seq<seq<int>>
    requires |run.batches| + (if run.failure.Some? then 1 else 0) <= |chunks|
  {
    chunks[..|run.batches| + if run.failure.Some? then 1 else 0]
  }

  /** One more chunk that the service answers: the run over the longer
      prefix gains that batch. */
  lemma RunStepOk(fetch: seq<int> -> Fetch<seq<ItemDetail>>, chunks: seq<seq<int>>, i: nat,
                  batches: seq<seq<ItemDetail>>, items: seq<ItemDetail>)
    requires i < |chunks|
    requires RunBatches(fetch, chunks[..i]) == BatchRun(batches, None)
    requires fetch(chunks[i]) == Ok(items)
    ensures RunBatches(fetch, chunks[..i + 1]) == BatchRun(batches + [items], None)
  {
    assert chunks[..i + 1][..i] == chunks[..i];
  }

  /** One more chunk that fails: the run over the longer prefix, and so the
      run over all chunks, ends with that failure. */
  lemma RunStepFailed(fetch: seq<int> -> Fetch<seq<ItemDetail>>, chunks: seq<seq<int>>, i: nat,
                      batches: seq<seq<ItemDetail>>, e: Exception)
    requires i < |chunks|
    requires RunBatches(fetch, chunks[..i]) == BatchRun(batches, None)
    requires fetch(chunks[i]) == Failed(e)
    ensures RunBatches(fetch, chunks) == BatchRun(batches, Some(e))
    ensures |batches| == i
    ensures Requested(RunBatches(fetch, chunks), chunks) == chunks[..i + 1]
  {
    var p := chunks[..i + 1];
    assert p[..|p| - 1] == chunks[..i];
    assert p[|p| - 1] == chunks[i];
    assert RunBatches(fetch, p) == BatchRun(batches, Some(e));
    RunFailureIsFinal(fetch, chunks, i + 1);
  }

  /** What both preload loops know after `i` chunks without a failure: the
      run so far returned `batches`; the chunks sent so far were appended to
      `sent0`; the running totals were appended to `shown0`; and the counter
      shows the last total, or its old value `current0` before the first
      batch; beside each total, the fixed overall count `y` was appended to
      `totals0`. */
  ghost predicate LoopState(fetch: seq<int> -> Fetch<seq<ItemDetail>>, chunks: seq<seq<int>>, i: nat,
                            batches: seq<seq<ItemDetail>>, sent: seq<seq<int>>, shown: seq<int>, current: int,
                            totals: seq<int>, sent0: seq<seq<int>>, shown0: seq<int>, current0: int,
                            totals0: seq<int>, y: int)
  {
    && i <= |chunks|
    && RunBatches(fetch, chunks[..i]) == BatchRun(batches, None)
    && sent == sent0 + chunks[..i]
    && shown == shown0 + RunningTotals(batches)
    && current == (if batches == [] then current0 else TotalSize(batches))
    && totals == totals0 + Repeat(y, |batches|)
  }

  /** Before the first chunk. */
  lemma LoopStart(fetch: seq<int> -> Fetch<seq<ItemDetail>>, chunks: seq<seq<int>>,
                  sent0: seq<seq<int>>, shown0: seq<int>, current0: int, totals0: seq<int>, y: int)
    ensures LoopState(fetch, chunks, 0, [], sent0, shown0, current0, totals0, sent0, shown0, current0, totals0, y)
  {
    assert chunks[..0] == [];
  }

  /** Chunk `i` is sent and answered: the counter shows the new total. */
  lemma LoopStepOk(fetch: seq<int> -> Fetch<seq<ItemDetail>>, chunks: seq<seq<int>>, i: nat,
                   batches: seq<seq<ItemDetail>>, sent: seq<seq<int>>, shown: seq<int>, current: int,
                   totals: seq<int>, sent0: seq<seq<int>>, shown0: seq<int>, current0: int,
                   totals0: seq<int>, y: int, items: seq<ItemDetail>)
    requires LoopState(fetch, chunks, i, batches, sent, shown, current, totals, sent0, shown0, current0, totals0, y)
    requires i < |chunks| && fetch(chunks[i]) == Ok(items)
    ensures var total := TotalSize(batches) + |items|;
            LoopState(fetch, chunks, i + 1, batches + [items], sent + [chunks[i]], shown + [total], total,
                      totals + [y], sent0, shown0, current0, totals0, y)
  {
    PrefixSnoc(chunks, i);
    assert sent + [chunks[i]] == sent0 + (chunks[..i] + [chunks[i]]);
    RunStepOk(fetch, chunks, i, batches, items);
    RunningTotalsAppend(batches, items);
    RepeatLogStep(totals, totals0, y, |batches|);
  }

  /** Chunk `i` is sent and fails: the whole run ends there, with the logs
      as they stand plus the failed chunk among those sent. */
  lemma LoopStepFailed(fetch: seq<int> -> Fetch<seq<ItemDetail>>, chunks: seq<seq<int>>, i: nat,
                       batches: seq<seq<ItemDetail>>, sent: seq<seq<int>>, shown: seq<int>, current: int,
                       totals: seq<int>, sent0: seq<seq<int>>, shown0: seq<int>, current0: int,
                       totals0: seq<int>, y: int, e: Exception)
    requires LoopState(fetch, chunks, i, batches, sent, shown, current, totals, sent0, shown0, current0, totals0, y)
    requires i < |chunks| && fetch(chunks[i]) == Failed(e)
    ensures var run := RunBatches(fetch, chunks);
            && run == BatchRun(batches, Some(e))
            && sent + [chunks[i]] == sent0 + Requested(run, chunks)
            && shown == shown0 + RunningTotals(run.batches)
            && current == (if run.batches == [] then current0 else TotalSize(run.batches))
            && totals == totals0 + Repeat(y, |run.batches|)
  {
    PrefixSnoc(chunks, i);
    assert sent + [chunks[i]] == sent0 + (chunks[..i] + [chunks[i]]);
    RunStepFailed(fetch, chunks, i, batches, e);
  }

  /** Every chunk was answered: the run is complete. */
  lemma LoopDone(fetch: seq<int> -> Fetch<seq<ItemDetail>>, chunks: seq<seq<int>>,
                 batches: seq<seq<ItemDetail>>, sent: seq<seq<int>>, shown: seq<int>, current: int,
                 totals: seq<int>, sent0: seq<seq<int>>, shown0: seq<int>, current0: int,
                 totals0: seq<int>, y: int)
    requires LoopState(fetch, chunks, |chunks|, batches, sent, shown, current, totals, sent0, shown0, current0, totals0, y)
    ensures var run := RunBatches(fetch, chunks);
            && run == BatchRun(batches, None)
            && sent == sent0 + Requested(run, chunks)
            && shown == shown0 + RunningTotals(run.batches)
            && current == (if run.batches == [] then current0 else TotalSize(run.batches))
            && totals == totals0 + Repeat(y, |run.batches|)
  {
    assert chunks[..|chunks|] == chunks;
  }

  /** Once a run has failed, later chunks change nothing: they are never
      fetched. */
  lemma {:induction false} RunFailureIsFinal(fetch: seq<int> -> Fetch<seq<ItemDetail>>, chunks: seq<seq<int>>, j: nat)
    requires j <= |chunks|
    requires RunBatches(fetch, chunks[..j]).failure.Some?
    ensures RunBatches(fetch, chunks) == RunBatches(fetch, chunks[..j])
    decreases |chunks| - j
  {
    if j < |chunks| {
      assert chunks[..|chunks| - 1][..j] == chunks[..j];
      RunFailureIsFinal(fetch, chunks[..|chunks| - 1], j);
    } else {
      assert chunks[..j] == chunks;
    }
  }

  /** The ids a run sends, taken together, are a prefix of the ids of all
      the chunks. */
  lemma RequestedIdsPrefix(fetch: seq<int> -> Fetch<seq<ItemDetail>>, chunks: seq<seq<int>>)
    ensures Flatten(Requested(RunBatches(fetch, chunks), chunks)) <= Flatten(chunks)
  {
    var run := RunBatches(fetch, chunks);
    FlattenPrefix(chunks, |run.batches| + if run.failure.Some? then 1 else 0);
  }

  /** Against a service that returns one item per requested id, a complete
      run returns exactly as many items as there were ids over all
      chunks. */
  lemma CompleteRunCountsEveryId(fetch: seq<int> -> Fetch<seq<ItemDetail>>, chunks: seq<seq<int>>)
    requires forall c :: fetch(c).Ok? ==> |fetch(c).value| == |c|
    requires RunBatches(fetch, chunks).failure.None?
    ensures TotalSize(RunBatches(fetch, chunks).batches) == |Flatten(chunks)|
  {
    var run := RunBatches(fetch, chunks);
    RunBatchesFetched(fetch, chunks);
    forall k | 0 <= k < |chunks| ensures |run.batches[k]| == |chunks[k]| {
      assert fetch(chunks[k]) == Ok(run.batches[k]);
    }
    TotalSizeSameShape(run.batches, chunks);
    TotalSizeIsFlattenLength(chunks);
  }

  /** The splash screen's work list: at most ten chunks of at most 200
      ids, which together are the first `min(|ids|, 2000)` ids. */
  lemma SplashChunksCapped(ids: seq<int>)
    ensures var chunks := Take(Chunked(ids, BatchSize), SplashBatchLimit);
            && |chunks| <= SplashBatchLimit
            && (forall k :: 0 <= k < |chunks| ==> 0 < |chunks[k]| <= BatchSize)
            && Flatten(chunks) == ids[..Min(|ids|, 2000)]
  {
    FlattenTakeChunked(ids, BatchSize, SplashBatchLimit);
  }
}
