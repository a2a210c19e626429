# Historical price harvester

This project models `run()` in `tools/scripts/get-token-historical-prices.js`. The script harvests historical token prices from RedStone oracle packages. It starts at a fixed start timestamp and walks a timeline of day steps, cutting it into batches of `NO_OF_DAYS` timestamps. For each batch it calls `getData` on every timestamp together (`Promise.all`) and stores each result under its timestamp in the map loaded from `historical_prices.json`. It then rewrites the whole file and moves on to the next batch. A batch is started only while its first day ends by the end timestamp.

`getData` finds the block for a timestamp. It buckets the block's timestamp down to a multiple of ten seconds and queries the oracle index at that bucket. From each decoded package it keeps the numeric arguments of the first data point.

The Dafny modules:

- `Wrappers` defines `Option`, used for a call that can reject.
- `Prices` holds the bucketing and the projection from `getData`. It also has `GetData` itself, with the block search and the index query passed in as functions.
- `Timeline` holds the day-step timeline and the batch arithmetic: batch starts, the number of batches, coverage and overshoot.
- `Cache` covers:
  - `Promise.all` as an ordered map that rejects on any failure;
  - storing results by position into the map;
  - the price file as a class whose `Write` replaces its contents and records a snapshot.
- `Harvester` has:
  - `Harvest`, the specification of the whole run as the sequence of snapshots written;
  - the imperative `Run`, whose nested loops are proved against `Harvest`;
  - lemmas about the run: write count, when it completes, what each write contains, and the schedule of the source's own constants.

The lookup `getData` is a deterministic parameter `int -> Option<R>`. `None` stands for a rejected promise.

The code differs from a natural reading of its purpose in three ways, and the model follows the code:

- The run always starts at the start timestamp. It computes no resume point from the map it loaded, and re-requested keys are overwritten.
- The last batch is not cut off at the end timestamp. It can run up to `NO_OF_DAYS - 1` days past the last day that ends by the end timestamp.
- A range of three days (end = start + 2 days) with `NO_OF_DAYS = 5` therefore stores five keys, not three (`Harvester.ThreeDayRange`).

## Model

| member | source | states |
|---|---|---|
| Prices.Bucket | tools/scripts/get-token-historical-prices.js:111 | The bucket is a multiple of 10. For a non-negative block timestamp it is at most the timestamp and more than the timestamp minus 10. For a negative one it is truncated toward zero, the way `parseInt` drops the fraction. |
| Prices.BucketIsFloor | tools/scripts/get-token-historical-prices.js:111 | For a non-negative block timestamp, every multiple of 10 at or below it is at or below the bucket, so the bucket is the greatest such multiple. |
| Prices.BucketIdempotent | tools/scripts/get-token-historical-prices.js:111 | Bucketing a bucketed timestamp changes nothing. |
| Prices.BucketExample | tools/scripts/get-token-historical-prices.js:111 | The block timestamp 1701950437 is looked up at 1701950430. |
| Prices.Project | tools/scripts/get-token-historical-prices.js:132 | The projection succeeds exactly when every package has a data point. It then has one entry per package, in package order, and entry i is the first data point's numeric arguments of package i. |
| Prices.ProjectAppend | tools/scripts/get-token-historical-prices.js:132 | The projection works package by package: a concatenation succeeds iff both parts do, and its result is the concatenation of theirs. |
| Prices.GetData | tools/scripts/get-token-historical-prices.js:101-132 | The call resolves exactly when the block is found, the index query returns packages for the bucketed block timestamp and the three oracle nodes, and every package has a data point. A result has one entry per package the index returned for the bucketed block timestamp and the three oracle nodes, and entry i is that package's first data point's arguments. |
| Prices.GetDataDependsOnBucketOnly | tools/scripts/get-token-historical-prices.js:109-113 | Two timestamps whose blocks fall in the same ten-second bucket get the same prices. |
| Timeline.StepsSplit | tools/scripts/get-token-historical-prices.js:43-52 | A run of a+b day steps is the first a steps followed by b steps from where they stopped. This is how consecutive batches join up. |
| Timeline.StepsIncreasing | tools/scripts/get-token-historical-prices.js:46-71 | With a positive interval the requested timestamps strictly increase, so none is requested twice. |
| Timeline.StrideIsProduct | tools/scripts/get-token-historical-prices.js:71 | The distance between batch starts, added up one interval per day, equals `NO_OF_DAYS * interval`. |
| Timeline.BatchRunsIff | tools/scripts/get-token-historical-prices.js:41-71 | Batch k is among the batches run iff its start `from + k*NO_OF_DAYS*interval` plus one interval is at most the end timestamp (both directions). |
| Timeline.RequestedWithinReach | tools/scripts/get-token-historical-prices.js:46-71 | Every requested timestamp is at most `NO_OF_DAYS - 2` intervals past the end timestamp, which is how far the uncut last batch can reach. |
| Timeline.CoveredUpToEnd | tools/scripts/get-token-historical-prices.js:46-71 | No gap: every day step whose day ends by the end timestamp is among the requested timestamps. |
| Cache.AnsweredAppend | tools/scripts/get-token-historical-prices.js:54 | A list of timestamps is fully answered iff both of its parts are. |
| Cache.PromiseAll | tools/scripts/get-token-historical-prices.js:54 | `Promise.all` resolves iff every timestamp is answered. It then has one result per timestamp, and result i is the answer for timestamp i. |
| Cache.PromiseAllAppend | tools/scripts/get-token-historical-prices.js:54 | Over a concatenation, `Promise.all` resolves iff it resolves over both parts, and its results are the concatenation of theirs. |
| Cache.PromiseAllPrefix | tools/scripts/get-token-historical-prices.js:54 | A resolved `Promise.all` also resolves over every prefix of its timestamps, with the matching prefix of results. |
| Cache.Merge | tools/scripts/get-token-historical-prices.js:56-60 | After storing a batch, the keys are the old keys plus the batch's timestamps, and every old key outside the batch keeps its value. |
| Cache.MergePairsByPosition | tools/scripts/get-token-historical-prices.js:54-60 | Storing resolved results pairs them with timestamps by position. Each batch timestamp holds its own answer, overwriting any earlier value, and all other keys are kept. |
| Cache.StoreOne | tools/scripts/get-token-historical-prices.js:58 | Storing one answered timestamp is a store of that answer over the map. |
| Cache.MergeSnoc | tools/scripts/get-token-historical-prices.js:56-60 | Storing the first i+1 results is storing the first i and then assigning result i to date i. |
| Cache.StoreResults | tools/scripts/get-token-historical-prices.js:56-60 | The `forEach` loop that assigns `json[date] = res[i]` leaves exactly the stored map `Merge` describes. |
| Cache.MergedOverChain | tools/scripts/get-token-historical-prices.js:56-65 | Two stores in sequence are one store over both timestamp lists, so batch after batch accumulates. |
| Cache.PriceFile.Read | tools/scripts/get-token-historical-prices.js:36 | Reading the file returns its contents. |
| Cache.PriceFile.Write | tools/scripts/get-token-historical-prices.js:65 | Writing replaces the contents with the whole map and appends that snapshot to the writes. |
| Harvester.RunBatchAnswered | tools/scripts/get-token-historical-prices.js:54 | A batch goes through iff every one of its timestamps is answered. |
| Harvester.RunBatchMerged | tools/scripts/get-token-historical-prices.js:54-60 | A batch that goes through stores each of its timestamps' answers over the map it started from. |
| Harvester.BatchOfRunsBatches | tools/scripts/get-token-historical-prices.js:54-60 | The batch step of `run()` fails exactly on batches with an unanswered timestamp and stores the answers of the others. |
| Harvester.HarvestStep | tools/scripts/get-token-historical-prices.js:46-71 | When a batch is started, a rejection ends the run with nothing written. Otherwise the merged map is written and the run goes on from `NO_OF_DAYS` steps later. |
| Harvester.BatchStartSteps | tools/scripts/get-token-historical-prices.js:69-71 | Batch k starts at `start + k*NO_OF_DAYS*interval`. |
| Harvester.BatchSpan | tools/scripts/get-token-historical-prices.js:43 | The span `NO_OF_DAYS * interval` is the stride between batch starts. |
| Harvester.GatherBatch | tools/scripts/get-token-historical-prices.js:48-52 | The inner loop pushes exactly `NO_OF_DAYS` timestamps `b, b+interval, ...`, bounded by `iterationEndTimestamp` and never by the end timestamp. It leaves `start` at `iterationEndTimestamp` and `end` one interval later. |
| Harvester.FetchAndStore | tools/scripts/get-token-historical-prices.js:54-60 | `Promise.all` and the `forEach` give the batch step's result: nothing on a rejection, otherwise the merged map. |
| Harvester.RunSoFarEnd | tools/scripts/get-token-historical-prices.js:46 | Once the outer loop condition fails, the run has completed with exactly the writes made so far. |
| Harvester.RunSoFarAdvance | tools/scripts/get-token-historical-prices.js:46-71 | One outer iteration keeps the loop invariant: a rejection ends the run with the writes made so far, otherwise the invariant holds for the next batch. |
| Harvester.Run | tools/scripts/get-token-historical-prices.js:34-73 | The nested loops write to the file exactly the snapshots `Harvest` prescribes, in order. The run completes iff `Harvest` does, and the file ends holding the last snapshot, or the loaded map if nothing was written. The loop invariants include that `dates` is empty, `end == start + interval`, and `iterationEndTimestamp == start + NO_OF_DAYS*interval` at the top of each iteration. |
| Harvester.RunSource | tools/scripts/get-token-historical-prices.js:29-73 | `run()` with the source's constants and `getData` writes exactly the snapshots `Harvest` prescribes for them. It completes iff `Harvest` does, and the file ends holding the last snapshot, or the loaded map if nothing was written. |
| Harvester.RequestedGrows | tools/scripts/get-token-historical-prices.js:46-71 | The timestamps requested by the first k+1 batches are those of the first k followed by batch k's, so together they are `start + i*interval` for i below `(k+1)*NO_OF_DAYS`. |
| Harvester.RequestedFirst | tools/scripts/get-token-historical-prices.js:46-71 | The timestamps requested by m+1 batches are the first batch's followed by those of the m batches after it. |
| Harvester.WriteCount | tools/scripts/get-token-historical-prices.js:46-65 | A completed run writes the file exactly once per batch, and zero times when the first day does not end by the end timestamp. An interrupted run wrote fewer times, and the batch it stopped at holds an unanswered timestamp. |
| Harvester.CompletedIffAllAnswered | tools/scripts/get-token-historical-prices.js:46-54 | The run completes iff every timestamp of every batch is answered (both directions). |
| Harvester.WriteMergesBatch | tools/scripts/get-token-historical-prices.js:56-65 | Write k is batch k's answers stored over the previous snapshot (the loaded map for k = 0). |
| Harvester.WriteCoversPrefix | tools/scripts/get-token-historical-prices.js:36-65 | Write k is the loaded map with the answers of every timestamp of batches 0..k stored over it. Keys loaded at startup and not requested keep their values. |
| Harvester.RunWritesPerBatch | tools/scripts/get-token-historical-prices.js:36-71 | For the batch step `run()` itself uses: a completed run writes once per batch and an interrupted one fewer times. The run completes iff every requested timestamp is answered. Write k is the loaded map with the answers of batches 0..k stored over it. |
| Harvester.SourceSchedule | tools/scripts/get-token-historical-prices.js:29-46 | With the source's constants the run makes 7 batches of 5 days, and the 35th requested timestamp is the end timestamp itself. |
| Harvester.ThreeDayRange | tools/scripts/get-token-historical-prices.js:34-73 | For a three-day range with batches of five days, the run completes with one write holding the five timestamps of the uncut batch. |

## Left out

- Chain access and credentials are not modelled: the `.secret` key, the wallet, the RPC providers and the block-by-date search. `GetData` takes the block lookup as a function parameter.
- The oracle index query, the Arweave `fetch`, the JSON reply and the package decoder are not modelled. They are network I/O and a foreign library, and `GetData` takes their combined result as a function parameter.
- Reading and writing `historical_prices.json` and `JSON.parse`/`JSON.stringify` are reduced to `Cache.PriceFile`, which holds a `map<int, R>` and a list of snapshots. JSON object keys are strings; the model keys by the integer timestamp.
- `Promise.all` concurrency and its rejection reason are not modelled. The model is an ordered map over the timestamps that yields `None` when any lookup fails.
- The `console.log` line with its `Date` formatting, the unused `timestamp` variable and `fromWei` are not modelled.
- Floating-point division in the bucketing is not modelled: `Prices.Bucket` uses exact integer division truncated toward zero. Exponent notation of very large numbers in `toString` is not modelled.
- The `for` loop in `getData` that fetches and decodes one package per feed is I/O. It is reduced to the `fetchPackages` parameter.
- Harvester.Run: requires `NO_OF_DAYS >= 1` and `interval > 0` (`Terminating`). With `NO_OF_DAYS = 0` the source's outer loop never advances `start` and spins forever, and the model does not describe that non-terminating run. The source's constants satisfy the requirement.
- The rest of the repository is not part of this model: configuration tables, UI stores and on-chain integration tests.
