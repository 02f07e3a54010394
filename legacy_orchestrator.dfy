/**
 * The first orchestrator of the project (option_bot/orchestrator.py): the
 * pools it starts to add tickers or import every ticker, the argument lists
 * those pools are given, the resolution of the contracts-download arguments,
 * and the exception handling around one option's price import. A pool run is
 * its process count and its task list; the database queries are parameters.
 */
module LegacyOrchestrator {
  import opened Common
  import opened PyDict
  import opened PoolKwargs
  import opened DbUtils
  import opened Download

  /** One entry of add_tickers_to_universe's kwargs_list: its "ticker", "start_date", "end_date" and "months_hist". */
  datatype TickerRequest = TickerRequest(ticker: string, startDate: int, endDate: int, monthsHist: int)

  /** The five positional arguments of import_tickers_and_contracts_process. */
  datatype ImportArgs<I> = ImportArgs(ticker: string, tickerId: I, startDate: int, endDate: int, monthsHist: int)

  /** A process pool the orchestrator starts: its `processes` and one task per argument. */
  datatype LegacyPool<I, O> =
    | MetadataPool(processes: int, tickers: seq<string>)       // pool.map(fetch_stock_metadata, tickers)
    | ImportPool(processes: int, args: seq<ImportArgs<I>>)     // starmap(import_tickers_and_contracts_process, ...)
    | OptionsPricesPool(processes: int, oTickers: seq<O>)      // starmap(fetch_options_prices, op_args)

  /** `query_options_tickers(stock_tickers, all_)`: the argument tuples of fetch_options_prices. */
  type OptionsQuery<O> = (seq<string>, bool) -> seq<O>

  /** `[x["ticker"] for x in kwargs_list]`. */
  function Tickers(requests: seq<TickerRequest>): (ts: seq<string>)
    ensures |ts| == |requests| && forall i :: 0 <= i < |requests| ==> ts[i] == requests[i].ticker
  {
    seq(|requests|, i requires 0 <= i < |requests| => requests[i].ticker)
  }

  /** The args_list of add_tickers_to_universe: the i-th request with the i-th looked-up id. */
  function ArgsList<I>(requests: seq<TickerRequest>, tickerIds: seq<I>): (args: seq<ImportArgs<I>>)
    requires |tickerIds| == |requests|
    ensures |args| == |requests|
  {
    seq(|requests|, i requires 0 <= i < |requests| =>
      ImportArgs(requests[i].ticker, tickerIds[i], requests[i].startDate, requests[i].endDate, requests[i].monthsHist))
  }

  /** The request an import argument tuple was built from. */
  function RequestOf<I>(a: ImportArgs<I>): TickerRequest
  {
    TickerRequest(a.ticker, a.startDate, a.endDate, a.monthsHist)
  }

  /** `[x[0] for x in args_list]`: the tickers of the requests the tuples were built from. */
  function ArgTickers<I>(args: seq<ImportArgs<I>>): (ts: seq<string>)
    ensures |ts| == |args| && forall i :: 0 <= i < |args| ==> ts[i] == args[i].ticker
  {
    Tickers(seq(|args|, i requires 0 <= i < |args| => RequestOf(args[i])))
  }

  /**
   * The args_list takes every request apart without loss: entry i holds
   * request i and id i, so the requests and the ids can be read back from it,
   * and the tickers prep_options_prices_args is given are the input tickers.
   */
  lemma ArgsListUnzip<I>(requests: seq<TickerRequest>, tickerIds: seq<I>)
    requires |tickerIds| == |requests|
    ensures var args := ArgsList(requests, tickerIds);
            && (forall i :: 0 <= i < |args| ==> RequestOf(args[i]) == requests[i] && args[i].tickerId == tickerIds[i])
            && ArgTickers(args) == Tickers(requests)
  {
  }

  /** prep_options_prices_args: every o_ticker with `all_`, else those of the given tickers. */
  function PrepOptionsPricesArgs<O>(tickers: seq<string>, allTickers: bool, query: OptionsQuery<O>): seq<O>
  {
    if allTickers then query(["all_"], true) else query(tickers, false)
  }

  /**
   * add_tickers_to_universe: a metadata pool with one task per ticker and
   * max(len(tickers), CPUS) processes; then, unless the number of ids looked
   * up differs from the number of requests (InvalidArgs, nothing more runs),
   * an import pool over the args_list and an options-prices pool over the
   * o_tickers of the same tickers, both with CPUS processes.
   */
  method AddTickersToUniverse<I, O>(kwargsList: seq<TickerRequest>, cpus: int,
                                    lookupIds: seq<string> -> seq<I>, queryOptions: OptionsQuery<O>)
    returns (pools: seq<LegacyPool<I, O>>, raised: Option<Error>)
    ensures |pools| >= 1 && pools[0] == MetadataPool(Max(|kwargsList|, cpus), Tickers(kwargsList))
    ensures raised.Some? <==> |lookupIds(Tickers(kwargsList))| != |kwargsList|
    ensures raised.Some? ==> raised.value == InvalidArgs && |pools| == 1
    ensures raised.None? ==>
              var tickerIds := lookupIds(Tickers(kwargsList));
              && |pools| == 3
              && pools[1] == ImportPool(cpus, ArgsList(kwargsList, tickerIds))
              && pools[2] == OptionsPricesPool(cpus, queryOptions(Tickers(kwargsList), false))
  {
    var tickers := Tickers(kwargsList);
    pools := [MetadataPool(Max(|tickers|, cpus), tickers)];
    var tickerIds := lookupIds(tickers);
    if |tickerIds| != |kwargsList| {
      raised := Some(InvalidArgs);
      return;
    }
    var argsList := ArgsList(kwargsList, tickerIds);
    pools := pools + [ImportPool(cpus, argsList)];
    ArgsListUnzip(kwargsList, tickerIds);
    var opArgs := PrepOptionsPricesArgs(ArgTickers(argsList), false, queryOptions);
    pools := pools + [OptionsPricesPool(cpus, opArgs)];
    raised := None;
  }

  /** The lookups import_all_ticker_metadata returns: `[{x[1]: x[0]} for x in ticker_results]`. */
  function MetadataLookups(rows: seq<StockRow>): (lookups: seq<TickerLookup>)
    ensures |lookups| == |rows|
    ensures forall i :: 0 <= i < |rows| ==>
              && Wf(lookups[i]) && lookups[i].keys == [rows[i].1]
              && lookups[i].entries == map[rows[i].1 := rows[i].0]
  {
    seq(|rows|, i requires 0 <= i < |rows| => Assign(Empty(), rows[i].1, rows[i].0))
  }

  /** `(list(x.keys())[0], list(x.values())[0])`: IndexError on an empty dict. */
  function FirstItem<K, V>(d: Dict<K, V>): (r: Result<(K, V)>)
    requires Wf(d)
    ensures r.Err? <==> !Truthy(d)
    ensures r.Err? ==> r.error == IndexError
    ensures r.Ok? ==> r.value.0 == d.keys[0] && r.value.0 in d.entries && r.value.1 == d.entries[r.value.0]
  {
    if d.keys == [] then Err(IndexError)
    else Ok((d.keys[0], ValueList(d)[0]))
  }

  /**
   * The args_list of import_all_tickers: the first key and first value of
   * each lookup with the run's dates and months; IndexError as soon as one
   * lookup is empty.
   */
  function ImportAllArgs(lookups: seq<TickerLookup>, startDate: int, endDate: int, monthsHist: int)
    : (r: Result<seq<ImportArgs<int>>>)
    requires forall i :: 0 <= i < |lookups| ==> Wf(lookups[i])
    ensures r.Err? <==> exists i :: 0 <= i < |lookups| && !Truthy(lookups[i])
    ensures r.Err? ==> r.error == IndexError
    ensures r.Ok? ==> |r.value| == |lookups|
    ensures r.Ok? ==> forall i :: 0 <= i < |lookups| ==>
              r.value[i] == ImportArgs(lookups[i].keys[0], ValueList(lookups[i])[0], startDate, endDate, monthsHist)
    decreases |lookups|
  {
    if lookups == [] then Ok([])
    else
      match FirstItem(lookups[0])
      case Err(e) => Err(e)
      case Ok((ticker, tickerId)) =>
        match ImportAllArgs(lookups[1..], startDate, endDate, monthsHist)
        case Err(e) =>
          Err(e)
        case Ok(rest) =>
          Ok([ImportArgs(ticker, tickerId, startDate, endDate, monthsHist)] + rest)
  }

  /**
   * The lookups import_all_ticker_metadata returns are never empty, so
   * import_all_tickers builds its args_list without an IndexError: entry i
   * is the ticker and id of row i.
   */
  lemma MetadataArgs(rows: seq<StockRow>, startDate: int, endDate: int, monthsHist: int)
    ensures var r := ImportAllArgs(MetadataLookups(rows), startDate, endDate, monthsHist);
            && r.Ok? && |r.value| == |rows|
            && forall i :: 0 <= i < |rows| ==> r.value[i] == ImportArgs(rows[i].1, rows[i].0, startDate, endDate, monthsHist)
  {
    var lookups := MetadataLookups(rows);
    assert forall i :: 0 <= i < |lookups| ==> Truthy(lookups[i]);
  }

  /** The pool kwargs of fetch_stock_metadata: one process, one child, one queue. */
  function SingleProcessKwargs(): (d: Kwargs)
    ensures Wf(d)
    ensures d.entries == map[Processes := IntArg(1), ChildConcurrency := IntArg(1), QueueCount := IntArg(1)]
  {
    Assign(Assign(Assign(Empty(), Processes, IntArg(1)), ChildConcurrency, IntArg(1)), QueueCount, IntArg(1))
  }

  /**
   * fetch_stock_metadata: the StockMetaData paginator for the given tickers,
   * downloaded by the legacy api_pool_downloader over the url args it
   * generates, with the single-process kwargs laid over the defaults.
   */
  function FetchStockMetadata<A>(tickers: seq<string>, allTickers: bool, urlArgs: seq<A>, defaults: Kwargs)
    : (r: (Endpoint, Dispatch<A>))
    requires Wf(defaults)
    ensures r.0 == StockMetaData(tickers, allTickers)
    ensures r.1.PoolRun? && r.1.tasks == urlArgs
  {
    (StockMetaData(tickers, allTickers), LegacyApiPoolDownloader(urlArgs, SingleProcessKwargs(), defaults))
  }

  /**
   * The metadata pool runs with one process, one child and one queue, and
   * every other default is kept.
   */
  lemma SingleProcessConfig<A>(tickers: seq<string>, allTickers: bool, urlArgs: seq<A>, defaults: Kwargs)
    requires Wf(defaults)
    ensures var config := FetchStockMetadata(tickers, allTickers, urlArgs, defaults).1.config.entries;
            && config.Keys == defaults.entries.Keys + {Processes, ChildConcurrency, QueueCount}
            && config[Processes] == IntArg(1) && config[ChildConcurrency] == IntArg(1) && config[QueueCount] == IntArg(1)
            && forall k :: k in defaults.entries && k != Processes && k != ChildConcurrency && k != QueueCount ==>
                 config[k] == defaults.entries[k]
  {
    var kwargs := SingleProcessKwargs();
    var run := LegacyApiPoolDownloader(urlArgs, kwargs, defaults);
    SingleProcessOverlay(defaults.entries, kwargs.entries, run.config.entries);
  }

  lemma SingleProcessOverlay(defaults: map<Kw, KwVal>, kwargs: map<Kw, KwVal>, config: map<Kw, KwVal>)
    requires kwargs == map[Processes := IntArg(1), ChildConcurrency := IntArg(1), QueueCount := IntArg(1)]
    requires config.Keys == defaults.Keys + kwargs.Keys
    requires forall k :: k in kwargs ==> config[k] == kwargs[k]
    requires forall k :: k in defaults && k !in kwargs ==> config[k] == defaults[k]
    ensures config.Keys == defaults.Keys + {Processes, ChildConcurrency, QueueCount}
    ensures config[Processes] == IntArg(1) && config[ChildConcurrency] == IntArg(1) && config[QueueCount] == IntArg(1)
    ensures forall k :: k in defaults && k != Processes && k != ChildConcurrency && k != QueueCount ==>
              config[k] == defaults[k]
  {
    assert kwargs.Keys == {Processes, ChildConcurrency, QueueCount};
  }

  /**
   * import_all_ticker_metadata: the metadata of every ticker is downloaded
   * first, then the stock rows are read back (`rows`) and turned into one
   * singleton lookup each.
   */
  method ImportAllTickerMetadata<A>(metadataUrlArgs: seq<A>, defaults: Kwargs, rows: seq<StockRow>)
    returns (download: (Endpoint, Dispatch<A>), lookups: seq<TickerLookup>)
    requires Wf(defaults)
    ensures download == FetchStockMetadata(["all_"], true, metadataUrlArgs, defaults)
    ensures lookups == MetadataLookups(rows)
  {
    download := FetchStockMetadata(["all_"], true, metadataUrlArgs, defaults);
    lookups := MetadataLookups(rows);
  }

  /**
   * import_all_tickers: import_all_ticker_metadata downloads the metadata of
   * every ticker and reads back `rows`; then an import pool over one
   * argument tuple per row, then an options-prices pool over every o_ticker,
   * both with CPUS processes.
   */
  method ImportAllTickers<A, O>(metadataUrlArgs: seq<A>, defaults: Kwargs,
                                rows: seq<StockRow>, startDate: int, endDate: int, monthsHist: int,
                                cpus: int, queryOptions: OptionsQuery<O>)
    returns (metadata: (Endpoint, Dispatch<A>), pools: seq<LegacyPool<int, O>>)
    requires Wf(defaults)
    ensures metadata == FetchStockMetadata(["all_"], true, metadataUrlArgs, defaults)
    ensures |pools| == 2 && pools[0].ImportPool? && pools[0].processes == cpus && |pools[0].args| == |rows|
    ensures forall i :: 0 <= i < |rows| ==> pools[0].args[i] == ImportArgs(rows[i].1, rows[i].0, startDate, endDate, monthsHist)
    ensures pools[1] == OptionsPricesPool(cpus, queryOptions(["all_"], true))
  {
    var tickerLookup;
    metadata, tickerLookup := ImportAllTickerMetadata(metadataUrlArgs, defaults, rows);
    MetadataArgs(rows, startDate, endDate, monthsHist);
    var argsList := ImportAllArgs(tickerLookup, startDate, endDate, monthsHist).value;
    pools := [ImportPool(cpus, argsList)];
    var opArgs := PrepOptionsPricesArgs(["all_"], true, queryOptions);
    pools := pools + [OptionsPricesPool(cpus, opArgs)];
  }

  /**
   * The legacy api_pool_downloader: the caller's kwargs laid over the
   * defaults, and a pool over the url args, even when there are none.
   */
  function LegacyApiPoolDownloader<A>(urlArgs: seq<A>, poolKwargs: Kwargs, defaults: Kwargs): (r: Dispatch<A>)
    requires Wf(poolKwargs) && Wf(defaults)
    ensures r.PoolRun? && r.tasks == urlArgs
    ensures r.config.entries.Keys == defaults.entries.Keys + poolKwargs.entries.Keys
    ensures forall k :: k in poolKwargs.entries ==> r.config.entries[k] == poolKwargs.entries[k]
    ensures forall k :: k in defaults.entries && k !in poolKwargs.entries ==> r.config.entries[k] == defaults.entries[k]
  {
    PoolRun(PoolKwargConfig(defaults, poolKwargs), urlArgs)
  }

  /**
   * fetch_options_contracts: the arguments resolved as for the pipeline's
   * contracts download, then the OptionsContracts paginator run with the
   * default pool kwargs.
   */
  function FetchOptionsContracts(tickers: seq<string>, lookup: TickerLookup, monthsHist: int,
                                 idQuery: TickerIdQuery, defaults: Kwargs)
    : (r: Result<(Endpoint, Kwargs)>)
    requires Wf(lookup) && Wf(defaults)
    ensures r.Err? <==> tickers == [] && !Truthy(lookup)
    ensures r.Err? ==> r.error == InvalidArgs
    ensures r.Ok? ==> r.value.0.OptionsContracts? && r.value.0.tickers != [] && r.value.0.monthsHist == monthsHist
    ensures r.Ok? ==> r.value.1.entries == defaults.entries
  {
    match ResolveContractArgs(tickers, lookup, idQuery)
    case Err(e) => Err(e)
    case Ok((ts, l)) =>
      var options := OptionsContracts(ts, l, monthsHist);
      Ok((options, LegacyApiPoolDownloader([options], Empty(), defaults).config))
  }

  /**
   * The legacy fetch_options_contracts and the pipeline's
   * download_options_contracts fail on the same inputs and otherwise build
   * the same paginator.
   */
  lemma ContractsAgree(tickers: seq<string>, lookup: TickerLookup, monthsHist: int,
                       idQuery: TickerIdQuery, defaults: Kwargs)
    requires Wf(lookup) && Wf(defaults)
    ensures var legacy := FetchOptionsContracts(tickers, lookup, monthsHist, idQuery, defaults);
            var pipeline := Download.DownloadOptionsContracts(tickers, lookup, monthsHist, idQuery);
            && (legacy.Err? <==> pipeline.Err?)
            && (legacy.Ok? ==> legacy.value.0 == pipeline.value.endpoint)
  {
  }

  /** An exception raised inside fetch_options_prices. */
  datatype Raised =
    | Planned(name: string)          // an instance of one of the planned_exceptions classes
    | OtherException(name: string)   // any other subclass of Exception
    | NotAnException(name: string)   // a BaseException outside Exception, such as a cancellation

  /** The number of batches that upload before the first one that raises. */
  function FirstFailure<B>(batches: seq<B>, upload: B -> Option<Raised>): (k: nat)
    ensures k <= |batches|
    ensures forall j :: 0 <= j < k ==> upload(batches[j]).None?
    ensures k < |batches| ==> upload(batches[k]).Some?
  {
    if batches == [] || upload(batches[0]).Some? then 0
    else 1 + FirstFailure(batches[1..], upload)
  }

  /** The exception that ends fetch_options_prices early: from the fetch, or from the first failing upload. */
  function Failure<B>(fetchRaises: Option<Raised>, batches: seq<B>, upload: B -> Option<Raised>): Option<Raised>
  {
    if fetchRaises.Some? then fetchRaises
    else
      var k := FirstFailure(batches, upload);
      if k < |batches| then upload(batches[k]) else None
  }

  /**
   * fetch_options_prices: the fetch, then one update_options_prices per
   * clean batch until one raises. A planned exception is swallowed, any
   * other Exception is logged and swallowed, and only a BaseException
   * outside Exception leaves the function.
   */
  method FetchOptionsPrices<B>(fetchRaises: Option<Raised>, batches: seq<B>, upload: B -> Option<Raised>)
    returns (uploads: seq<B>, logged: seq<Raised>, propagated: Option<Raised>)
    ensures fetchRaises.Some? ==> uploads == []
    ensures fetchRaises.None? ==>
              var k := FirstFailure(batches, upload);
              uploads == batches[..if k < |batches| then k + 1 else k]
    ensures var f := Failure(fetchRaises, batches, upload);
            && logged == (if f.Some? && f.value.OtherException? then [f.value] else [])
            && propagated == (if f.Some? && f.value.NotAnException? then f else None)
    ensures propagated.Some? ==> propagated.value.NotAnException?
  {
    uploads, logged, propagated := [], [], None;
    var failure := fetchRaises;
    if failure.None? {
      ghost var k := FirstFailure(batches, upload);
      var i := 0;
      while i < |batches| && failure.None?
        invariant 0 <= i <= |batches| && uploads == batches[..i]
        invariant failure.None? ==> i <= k
        invariant failure.Some? ==> k < |batches| && i == k + 1 && failure == upload(batches[k])
        decreases |batches| - i
      {
        failure := upload(batches[i]);
        uploads := uploads + [batches[i]];
        i := i + 1;
      }
    }
    match failure {
      case None =>
      case Some(Planned(_)) =>
      case Some(OtherException(_)) =>
        logged := [failure.value];
      case Some(NotAnException(_)) =>
        propagated := failure;
    }
  }
}
