# Curator market-data pipeline, modelled in Dafny

This project models the sequential control and bookkeeping of the Curator
market-data pipeline. That pipeline fetches stock and option data from the
Polygon API and loads it into Postgres. The HTTP exchange, the process pools
and the database are not modelled as such: their results are parameters, and
their calls are values the model records.

The modules follow the repository:

- `Polygon` (polygon.dfy): the per-paginator rate limiter and fetch loop of
  `PolygonPaginator`. The fields are kept in a `Paginator` class whose
  `QueryAll` method changes them in place. Responses come from an injected
  queue and carry the clock reading as integer milliseconds. A sleep is a
  recorded `Slept` event. `Fetch` is the specification function that
  `QueryAll` is proved against, and the lemmas are stated about `Fetch`.
- `PipelineOrchestrator` and `PartialRunFacts` (pipeline_orchestrator.dfy):
  `import_partial`. `ImportPartial` is the method with its six
  `if k in partial` blocks. `PartialRun` is the specification: it returns the
  calls made, in order, and the exception that ended the import.
- `PipelineReuse` (pipeline_reuse.dfy): which lookups `import_partial` reuses
  and which it reads afresh.
- `PipelineImportAll` (pipeline_import_all.dfy): `import_all` and
  `remove_tickers_from_universe` of the data pipeline.
- `Download` (download.dfy) and `CuratorDownload` (curator_download.dfy): the
  download dispatchers of both packages. They cover the empty-args case, the
  pool-kwarg merge, argument resolution for the contracts download, and the
  chunking of option tickers into batches of 1000.
- `DbUtils` (db_utils.dfy): `OptionTicker`, `pull_tickers_from_db` and
  `generate_o_ticker_lookup`, as dict comprehensions over query rows.
- `LegacyOrchestrator` (legacy_orchestrator.dfy): the helpers of the first
  orchestrator. These are its argument lists, the pools it starts, contract
  argument resolution, and the exception handling of `fetch_options_prices`.
- `PoolKwargs` (pool_kwargs.dfy): `pool_kwarg_config`, and the
  `dict(**a, **b)` merge that adds the session keys.
- `PyDict` (pydict.dfy): a Python dict with insertion order. A comprehension
  or `update` assigns its pairs in order, so the last pair wins.
- `Common` (common.dfy): result types and integer ceiling division.

Where the code and its design description disagree, the model follows the
code:

- `query_all` calls `raise_for_status`, which raises only for statuses 400 to
  599. Any other status that is neither 200 nor 429 ends the loop without an
  error and stores nothing (`Polygon.OtherStatusEndsQuietly`).
- `remove_tickers_from_universe` issues one delete per ticker, in order. It
  does not isolate failures per ticker: a delete that raises ends the loop.
- `import_all` fetches the snapshots (from the unexpired contracts) before the
  option prices. `import_partial` runs prices (stage 4) before snapshots
  (stage 5).
- `pull_tickers_from_db` returns a dict, not the list its docstring describes.
- In `add_tickers_to_universe`, each metadata task receives a single ticker
  with `all_` left at its default `True`. The metadata pool therefore asks
  for all tickers once per task (`LegacyOrchestrator.AddTickersToUniverse`
  records the ticker given to each task).

## Model

| member | source | states |
|---|---|---|
| Polygon.SleepTime | option_bot/polygon.py:29-36 | the sleep is 60 s when at most two requests are logged, and never more than 60 s |
| Polygon.SleepTimeAdapts | option_bot/polygon.py:31-35 | with three or more entries the sleep is the first-to-last span rounded up to whole seconds, capped at 60 s, with 60 exactly when the span exceeds 59 s |
| Polygon.SleepTimeWithinWindow | option_bot/polygon.py:29-36 | on a log whose timestamps do not decrease, the sleep lies in [0, 60] |
| Polygon.SleepTimeFiveSeconds | option_bot/polygon.py:32-35 | three entries spread over five seconds give a five-second sleep |
| Polygon.Step | option_bot/polygon.py:38-58 | one pass of the body either stops or calls itself again on a strictly shorter response queue |
| Polygon.StepAccounting | option_bot/polygon.py:40-48 | one pass keeps `query_count == len(query_time_log) <= 4` |
| Polygon.StepOnPage | option_bot/polygon.py:50-54 | a 200 response stores its body and requests the url once; the loop continues to `next_url` with no payload exactly when one is present |
| Polygon.FetchKeepsAccounting | option_bot/polygon.py:40-48 | `query_all` keeps the counter equal to the log's length and at most `MAX_QUERY_PER_MINUTE` |
| Polygon.FetchConsumes | option_bot/polygon.py:46-58 | `query_all` consumes a prefix of the responses and appends the body of every 200 among them, in order, and nothing else |
| Polygon.FetchAppendsEvents | option_bot/polygon.py:38-58 | sleeps and requests are only appended, never undone |
| Polygon.StepLog | option_bot/polygon.py:40-48 | one pass that receives a response appends exactly that response's entry to the log left by the throttle and raises the counter by one, before the status is looked at |
| Polygon.StepOnTooManyRequests | option_bot/polygon.py:46-56 | a 429 is logged and counted, stores nothing, and leads to the same url and parameters being sent again with the overload flag |
| Polygon.FetchLogsResponses | option_bot/polygon.py:40-48 | the log is the tail of the old log plus one entry per response taken, 429 and error responses included |
| Polygon.FetchLogsLast | option_bot/polygon.py:46-48 | unless the loop ended for want of a response, it took at least one and the log ends with the entry of the last response taken, whatever its status |
| Polygon.FollowsPageChain | option_bot/polygon.py:50-54 | a chain of k pages takes exactly k requests, to the url and then to each `next_url`, and stores the k bodies in page order |
| Polygon.RetriesOnceAfterTooManyRequests | option_bot/polygon.py:55-56 | a 429 then a final page: the same url and payload are sent again after an overload sleep, and the log restarts with the retry |
| Polygon.ErrorStatusRaises | option_bot/polygon.py:57-58 | a 4xx or 5xx status raises, after logging and counting the response, and leaves `results` unchanged |
| Polygon.OtherStatusEndsQuietly | option_bot/polygon.py:57-58 | a status that is not 200, 429, 4xx or 5xx ends the loop with `results` unchanged |
| Polygon.ThrottlesWhenDue | option_bot/polygon.py:40-43 | the first effect is a sleep exactly when the count reached 4 or an overload is signalled, and that sleep is computed from the log as it was |
| Polygon.Paginator.constructor | option_bot/polygon.py:24-27 | a new paginator has count 0, an empty log and no results, so the limiter invariant holds |
| Polygon.Paginator.QueryAll | option_bot/polygon.py:38-58 | the method's new fields and outcome are those of `Fetch`; the limiter invariant is kept |
| Polygon.FetchAsWritten | option_bot/polygon.py:46-52 | the code as written: `response.get` fails on every response, before anything is logged or stored |
| Polygon.AsWrittenDropsFirstPage | option_bot/polygon.py:46-52 | on a 200 first page the intended loop stores its body, while the code as written stores nothing and raises AttributeError |
| PoolKwargs.PoolKwargConfig | option_bot/orchestrator.py:68-72 | every caller key keeps the caller's value, every other default keeps its default, and the defaults, a value, are not changed |
| PoolKwargs.UnpackTwo | option_bot/data_pipeline/download.py:59 | `dict(**a, **b)` fails with a duplicate keyword exactly when the two share a key, and otherwise holds both, `a`'s keys first |
| PoolKwargs.SessionClash | option_bot/data_pipeline/download.py:59 | the session keys clash exactly when the caller already set `init_client_session` or `session_base_url` |
| PoolKwargs.SessionPoolConfig | option_bot/data_pipeline/download.py:59-60 | the config fails exactly on a caller session key; otherwise it holds the defaults, the caller's values and both session keys |
| PoolKwargs.SessionConfigFacts | option_bot/data_pipeline/download.py:59-60 | the merged config's keys and values, on the underlying maps |
| Download.ApiPoolDownloader | option_bot/data_pipeline/download.py:37-66 | no pool when there are no url args (a log line only for a truthy `batch_num`); otherwise one task per url-args tuple, and a duplicate-keyword error exactly on a caller session key |
| Download.DownloadStockPrices | option_bot/data_pipeline/download.py:81-85 | the args are exactly the lookup's keys, each once, in the lookup's order |
| Download.ResolveContractArgs | option_bot/data_pipeline/download.py:88-100 | InvalidArgs exactly when both inputs are falsy; the lookup's keys when only the lookup is given; a last-wins `{row[0]: row[1]}` lookup when only tickers are given |
| Download.DownloadOptionsContracts | option_bot/data_pipeline/download.py:88-102 | raises exactly as the resolution does; otherwise one OptionsContracts download over the resolved tickers |
| Download.ChunksFlatten | option_bot/data_pipeline/download.py:139-141 | the slices concatenate back to the input |
| Download.ChunksCount | option_bot/data_pipeline/download.py:139-141 | there are ceil(n / 1000) slices |
| Download.ChunkAt | option_bot/data_pipeline/download.py:139-141 | slice j is `o_tickers[j * 1000 : j * 1000 + 1000]` |
| Download.ChunkSizes | option_bot/data_pipeline/download.py:139-141 | every slice is non-empty and at most 1000 long, and all but the last are exactly 1000 long |
| Download.ChunksOf2500 | option_bot/data_pipeline/download.py:137-143 | 2500 option tickers make batches of 1000, 1000 and 500 |
| Download.DownloadOptionsQuotes | option_bot/data_pipeline/download.py:128-143 | one downloader call per consecutive slice, in order, and `batch_num` ends at one more than the number of slices |
| CuratorDownload.FilterKeeps | curator/data_pipeline/download.py:141 | the filter keeps exactly the o_tickers of the given underlying, each as often as the input holds it |
| CuratorDownload.FilterAppend | curator/data_pipeline/download.py:141 | the filter keeps the input order (it distributes over concatenation) |
| CuratorDownload.QuoteLookup | curator/data_pipeline/download.py:138 | the lookup covers every o_ticker of the whole input, and a later duplicate's id wins |
| CuratorDownload.LookupCoversKept | curator/data_pipeline/download.py:138-141 | every o_ticker of a kept batch has an id in the paginator's lookup |
| CuratorDownload.ApiQuoteDownloader | curator/data_pipeline/download.py:155-182 | no quote pool for empty url args; otherwise the session keys are added and the mapping is passed, failing on a duplicate keyword |
| CuratorDownload.DownloadOptionsQuotes | curator/data_pipeline/download.py:130-152 | one quote downloader call per slice of at most 1000 of the filtered o_tickers, in order, all with the same lookup |
| CuratorDownload.DispatchQuoteBatches | curator/data_pipeline/download.py:142-151 | the chunk loop makes one call per slice of the filtered list, in order |
| DbUtils.FromRow | curator/db_tools/utils.py:6 | `OptionTicker(*row)` has the four fields of the row, in order |
| DbUtils.PullTickersFacts | curator/db_tools/utils.py:18-20 | the keys are the rows' `row[1]` values, and each maps to the `row[0]` of its last row |
| DbUtils.GenerateOTickerLookupFacts | curator/db_tools/utils.py:37-39 | the query gets `tickers`, `all_` and `unexpired` unchanged; one entry per distinct `row[0]`, whose record has that o_ticker and comes from the last such row |
| DbUtils.OptionLookupFacts | curator/db_tools/utils.py:39 | the same facts for the dict built from any list of rows |
| PipelineOrchestrator.ImportPartial | option_bot/data_pipeline/orchestrator.py:70-111 | the method's calls and exception are those of `PartialRun` |
| PipelineOrchestrator.MetadataBlock | option_bot/data_pipeline/orchestrator.py:81-83 | the block adds the metadata download then upload, as stage 1 of `PartialRun` |
| PipelineOrchestrator.StockPricesBlock | option_bot/data_pipeline/orchestrator.py:85-88 | the block pulls the lookup afresh, then downloads and uploads the prices with it |
| PipelineOrchestrator.ContractsBlock | option_bot/data_pipeline/orchestrator.py:90-94 | the block pulls only when no lookup is held, and the download raises InvalidArgs on an empty lookup |
| PipelineOrchestrator.OptionsPricesBlock | option_bot/data_pipeline/orchestrator.py:96-99 | the block generates the o_ticker lookup without `unexpired`, then downloads and uploads the prices |
| PipelineOrchestrator.SnapshotsBlock | option_bot/data_pipeline/orchestrator.py:101-105 | the block reuses a held o_ticker lookup, or else generates one of unexpired contracts |
| PipelineOrchestrator.QuotesBlock | option_bot/data_pipeline/orchestrator.py:107-111 | the block reuses a held o_ticker lookup, or else generates one without `unexpired` |
| PipelineOrchestrator.PartialRunUnrolled | option_bot/data_pipeline/orchestrator.py:81-111 | an import that no stage ends early is the six blocks one after the other |
| PipelineOrchestrator.PartialRunStopsAtContracts | option_bot/data_pipeline/orchestrator.py:90-95 | an import that stage 3 ends stops there |
| PartialRunFacts.PartialOrderIrrelevant | option_bot/data_pipeline/orchestrator.py:81-111 | only the set of selected stages matters, not their order, repetitions or other numbers |
| PartialRunFacts.MetadataSegment | option_bot/data_pipeline/orchestrator.py:81-83 | stage 1 adds the metadata download for all tickers, then its upload |
| PartialRunFacts.StockPricesSegment | option_bot/data_pipeline/orchestrator.py:85-88 | stage 2 adds a lookup pull, then the prices download and its upload |
| PartialRunFacts.ContractsSegment | option_bot/data_pipeline/orchestrator.py:90-94 | stage 3 adds a pull only when no lookup is held, then the contracts download, then its upload unless that download raised |
| PartialRunFacts.OptionsPricesSegment | option_bot/data_pipeline/orchestrator.py:96-99 | stage 4 adds the o_ticker lookup, then the prices download and its upload |
| PartialRunFacts.SnapshotsSegment | option_bot/data_pipeline/orchestrator.py:101-105 | stage 5 adds a lookup of unexpired contracts only when none is held, then the snapshots download and its upload |
| PartialRunFacts.QuotesSegment | option_bot/data_pipeline/orchestrator.py:107-111 | stage 6 adds an o_ticker lookup only when none is held, then the quotes download and its upload |
| PartialRunFacts.StageSegment | option_bot/data_pipeline/orchestrator.py:81-111 | each block adds an optional query, then its download, then its upload unless the download raised; only stage 3 raises |
| PartialRunFacts.StageFromRun | option_bot/data_pipeline/orchestrator.py:77-111 | every block passes the import's tickers, `all_ == (len(tickers) == 0)`, its dates and its months |
| PartialRunFacts.StagesFromShape | option_bot/data_pipeline/orchestrator.py:81-111 | stages k..6 keep the shape of the trace and its arguments |
| PartialRunFacts.PartialRunShape | option_bot/data_pipeline/orchestrator.py:77-111 | only selected stages run, in the order 1..6; each download directly follows its query and precedes its upload unless it raised; every selected stage downloads unless the import raised; every call passes the run's own arguments |
| PartialRunFacts.PartialRunRaises | option_bot/data_pipeline/orchestrator.py:90-95 | the import raises only InvalidArgs, only with stage 3 selected, and the last call is a contracts download given an empty lookup |
| PipelineReuse.StageReuse | option_bot/data_pipeline/orchestrator.py:81-111 | each block keeps the reuse invariant of the calls before the next stage |
| PipelineReuse.StagesFromReuse | option_bot/data_pipeline/orchestrator.py:81-111 | stages k..6 keep the reuse invariant |
| PipelineReuse.PartialRunReuses | option_bot/data_pipeline/orchestrator.py:85-109 | a non-empty stock-prices lookup is the contracts lookup and is not pulled again; non-empty o_tickers of prices (or snapshots) are reused by the snapshots and quotes; unexpired contracts are read only when the prices had no o_tickers |
| PipelineImportAll.AllRun | option_bot/data_pipeline/orchestrator.py:25-67 | `import_all` makes 6 calls when the contracts download raises and 14 otherwise, and the contracts download gets the pulled lookup |
| PipelineImportAll.ImportAll | option_bot/data_pipeline/orchestrator.py:25-67 | the method's calls and exception are those of `AllRun` |
| PipelineImportAll.RaisedCallsFacts | option_bot/data_pipeline/orchestrator.py:39-51 | when the contracts download raises, the trace is exactly: metadata download and upload, the pull, the prices download and upload with the pulled lookup, and the contracts download |
| PipelineImportAll.AllCallsFacts | option_bot/data_pipeline/orchestrator.py:39-67 | the trace of a complete `import_all` is exactly the fourteen calls in source order, each with its arguments, and has no quotes upload |
| PipelineImportAll.AllRunShape | option_bot/data_pipeline/orchestrator.py:39-67 | the whole trace: metadata download and upload, the lookup pulled from the database as it stands after them, its prices and contracts downloads and uploads; then the unexpired contracts read back after the contracts upload and their snapshots downloaded and uploaded; then all contracts read back after that and their prices downloaded and uploaded and their quotes downloaded, with no quotes upload; it raises InvalidArgs, right after the contracts download, exactly on an empty lookup |
| PipelineImportAll.AllRunStartsAsPartial | option_bot/data_pipeline/orchestrator.py:39-51 | with no tickers, `import_all` starts with exactly the calls of `import_partial` for stages 1-3 |
| PipelineImportAll.AllRunRaisesAsDownload | option_bot/data_pipeline/download.py:94-95 | `import_all` raises exactly when `download_options_contracts` with that lookup and no tickers raises, and with the same error |
| PipelineImportAll.ContractsStageRaisesAsDownload | option_bot/data_pipeline/download.py:94-95 | stage 3 of `import_partial` raises exactly when the download it calls raises, with the same error |
| PipelineImportAll.RemoveTickersFromUniverse | option_bot/data_pipeline/orchestrator.py:114-119 | one `delete_stock_ticker` per ticker, in input order; the legacy copy at option_bot/orchestrator.py:248-252 is the same loop |
| LegacyOrchestrator.ArgsListUnzip | option_bot/orchestrator.py:139-156 | entry i of `args_list` holds request i and id i, and the tickers passed on to `prep_options_prices_args` are the input tickers |
| LegacyOrchestrator.AddTickersToUniverse | option_bot/orchestrator.py:125-166 | a metadata pool of max(len(tickers), CPUS) processes, one task per ticker; InvalidArgs exactly when the id count differs, with no further pool; else an import pool over `args_list` and a prices pool over the same tickers' o_tickers |
| LegacyOrchestrator.MetadataLookups | option_bot/orchestrator.py:267-269 | one singleton dict `{row[1]: row[0]}` per row, in row order |
| LegacyOrchestrator.FetchStockMetadata | option_bot/orchestrator.py:272-279 | a StockMetaData paginator for the given tickers, with a pool over exactly the url args it generates |
| LegacyOrchestrator.SingleProcessConfig | option_bot/orchestrator.py:278-279 | the metadata pool has `processes`, `childconcurrency` and `queuecount` set to 1, and every other default kept |
| LegacyOrchestrator.ImportAllTickerMetadata | option_bot/orchestrator.py:255-269 | the metadata of all tickers (`["all_"]`, `all_=True`) is downloaded first, then the rows read back become the singleton lookups |
| LegacyOrchestrator.FirstItem | option_bot/orchestrator.py:174-175 | the first key and its value, and IndexError exactly on an empty dict |
| LegacyOrchestrator.ImportAllArgs | option_bot/orchestrator.py:172-181 | IndexError exactly when some lookup is empty; otherwise one tuple per lookup of its first key, its value and the run's dates and months |
| LegacyOrchestrator.MetadataArgs | option_bot/orchestrator.py:171-181 | on the lookups of `import_all_ticker_metadata` there is no IndexError, and entry i is the ticker and id of row i |
| LegacyOrchestrator.ImportAllTickers | option_bot/orchestrator.py:169-207 | the all-tickers metadata download first, then an import pool with one tuple per stock row, then a prices pool over every o_ticker |
| LegacyOrchestrator.LegacyApiPoolDownloader | option_bot/orchestrator.py:100-122 | a pool over exactly the url args, even none, with the caller's kwargs laid over the defaults |
| LegacyOrchestrator.FetchOptionsContracts | option_bot/orchestrator.py:300-314 | InvalidArgs exactly when both inputs are falsy; otherwise an OptionsContracts paginator over non-empty tickers, run with the default pool kwargs |
| LegacyOrchestrator.ContractsAgree | option_bot/orchestrator.py:306-313 | the legacy resolution and the pipeline's download fail on the same inputs and otherwise build the same paginator |
| LegacyOrchestrator.FirstFailure | option_bot/orchestrator.py:324-325 | the number of batches that upload before the first one that raises |
| LegacyOrchestrator.FetchOptionsPrices | option_bot/orchestrator.py:317-336 | uploads stop at the first failure; a planned exception is swallowed, any other Exception is logged, and only a non-Exception escapes |
| PyDict.FromPairsSemantics | curator/db_tools/utils.py:18 | a dict comprehension holds exactly the keys of its pairs, each with the value of its last pair |
| PyDict.AssignAllLastWins | curator/db_tools/utils.py:18 | a pair that no later pair overrides keeps its value |
| PyDict.UpdateSemantics | option_bot/orchestrator.py:71 | `update` keeps the old keys and adds the new, and the new values win |
| Common.CeilDiv | option_bot/polygon.py:34 | `math.ceil(n / d)`: the q with (q - 1) * d < n <= q * d |
| Common.CeilDivUnique | option_bot/polygon.py:34 | that q is unique |

## Left out

- HTTP itself (`requests.get`, `response.json`, the API key's source), `asyncio.sleep` and the wall clock. Responses are injected, and each carries its arrival time in integer milliseconds. A sleep is a recorded event. Decoding a body is not modelled: a body is an opaque string.
- `timestamp_to_datetime` and float arithmetic. The span between timestamps is computed with integer ceiling division over milliseconds.
- The `aiomultiprocess` Pool and QuotePool, `starmap`/`map` scheduling, `childconcurrency`, `queuecount`, uvloop and concurrency in general. A pool run is its configuration or process count plus its task list.
- `cpu_count()` and the defaults derived from it (which divide by zero on a host with two CPUs). CPUS and the default kwargs are parameters.
- The paginator subclasses of option_bot/polygon.py (unfinished stubs), the `data_pipeline.polygon_utils` paginators, `generate_request_args`, `clean_data` and the uploaders. These are not part of this model: their results are parameters, and their calls are recorded values.
- The database queries and writes (`query_*`, `lookup_*`, `delete_stock_ticker`, `ticker_imported`, `update_*`). Their results are parameters, and their calls are recorded values.
- Logging, Sentry's `capture_exception`, `etl_pool_uploader` (its body is `pass`), `split_quotes_and_prices_dates`, `test_query`, `main` and the alembic migration.
- Exceptions raised by collaborators in the pipeline orchestrator and downloaders, other than the InvalidArgs of the contracts download. A collaborator that raises would end the import there, and the model does not capture that.
- Python's `None`: wherever the modelled code tests a list or dict for truth, `None` and an empty value take the same branch, so both are an empty value here.
- A `KeyError` from a `kwargs_list` entry lacking one of its four keys: each entry is a record with those fields.
- `fetch_stock_prices`, `import_tickers_and_contracts_process`, and the per-ticker `fetch_stock_metadata` tasks of `add_tickers_to_universe`'s metadata pool in option_bot/orchestrator.py are recorded as pool tasks, not modelled. The direct `fetch_stock_metadata` call of `import_all_ticker_metadata` is modelled by `LegacyOrchestrator.FetchStockMetadata`.
- The `log_time`-style request ids are kept as opaque optional strings.
- LegacyOrchestrator.ArgsList: its own contract states only the length; what each entry holds is stated by `LegacyOrchestrator.ArgsListUnzip`.
- CuratorDownload.FilterUnderlying: its own contract states only the length bound; what it keeps and in which order is stated by `FilterKeeps` and `FilterAppend`.

## Findings

| source | as written | input that shows it | evidently intended | confidence | as-written member | corrected member |
|---|---|---|---|---|---|---|
| option_bot/polygon.py:46-52 | `response.get("request_id")` and `response.get("next_url")` are called on a `requests.Response`, which has no `get` method, so every request raises AttributeError before it is logged | any first response, e.g. status 200 with a body and no `next_url` | read both fields from the decoded JSON body, so the response is logged, its body stored and `next_url` followed | not executed | Polygon.FetchAsWritten | Polygon.Paginator.QueryAll |
