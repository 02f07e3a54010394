/**
 * The download side of the data pipeline: when a process pool is started,
 * with which tasks and keyword arguments, how the options-contracts
 * arguments are resolved, and how option tickers are cut into batches.
 * A pool run is modelled as the list of argument tuples `download_data`
 * is started with; the paginator's `generate_request_args` is a parameter.
 */
module Download {
  import opened Common
  import opened PyDict
  import opened PoolKwargs
  import opened DbUtils

  /** What api_pool_downloader does once the request arguments are generated. */
  datatype Dispatch<A> =
    | Skipped(loggedBatch: bool)               // no url args: no pool; a log line only when batch_num is truthy
    | PoolRun(config: Kwargs, tasks: seq<A>)   // one download_data task per url-args tuple

  /**
   * api_pool_downloader after `generate_request_args` returned `urlArgs`:
   * no pool for an empty list; otherwise a pool over exactly those tuples,
   * configured with the session keys added to the caller's kwargs.
   */
  function ApiPoolDownloader<A>(urlArgs: seq<A>, poolKwargs: Kwargs, defaults: Kwargs, baseUrl: string, batchNum: Option<int>)
    : (r: Result<Dispatch<A>>)
    requires Wf(poolKwargs) && Wf(defaults)
    ensures urlArgs == [] ==> r == Ok(Skipped(batchNum.Some? && batchNum.value != 0))
    ensures r.Err? <==> urlArgs != [] && (InitClientSession in poolKwargs.entries || SessionBaseUrl in poolKwargs.entries)
    ensures r.Err? ==> r.error.DuplicateKeyword?
    ensures urlArgs != [] && r.Ok? ==>
              && r.value.PoolRun? && r.value.tasks == urlArgs
              && r.value.config.entries.Keys
                 == defaults.entries.Keys + poolKwargs.entries.Keys + {InitClientSession, SessionBaseUrl}
              && r.value.config.entries[InitClientSession] == BoolArg(true)
              && r.value.config.entries[SessionBaseUrl] == StrArg(baseUrl)
              && forall k :: k in poolKwargs.entries ==> r.value.config.entries[k] == poolKwargs.entries[k]
  {
    if urlArgs == [] then Ok(Skipped(batchNum.Some? && batchNum.value != 0))
    else
      match SessionPoolConfig(defaults, poolKwargs, baseUrl)
      case Err(e) => Err(e)
      case Ok(config) => Ok(PoolRun(config, urlArgs))
  }

  /** The paginator a download is run with, and what it is constructed from. */
  datatype Endpoint =
    | StockMetaData(tickers: seq<string>, allTickers: bool)
    | HistoricalStockPrices(startDate: int, endDate: int)
    | OptionsContracts(tickers: seq<string>, lookup: TickerLookup, monthsHist: int)
    | HistoricalOptionsPrices(monthsHist: int)
    | CurrentContractSnapshot
    | HistoricalQuotes(monthsHist: int, oTickerLookup: Option<TickerLookup>)

  /** One call of api_pool_downloader (or api_quote_downloader): paginator, args_data and the caller's pool kwargs. */
  datatype DownloaderCall<T> = DownloaderCall(endpoint: Endpoint, argsData: seq<T>, poolKwargs: Kwargs)

  function IntKwargs(ps: seq<(Kw, int)>): (d: Kwargs)
  {
    FromPairs(seq(|ps|, i requires 0 <= i < |ps| => (ps[i].0, IntArg(ps[i].1))))
  }

  /** download_stock_prices: the tickers are the lookup's keys, each once, in the lookup's order. */
  function DownloadStockPrices(lookup: TickerLookup, startDate: int, endDate: int): (call: DownloaderCall<string>)
    requires Wf(lookup)
    ensures call.argsData == lookup.keys
    ensures (set t | t in call.argsData) == lookup.entries.Keys
    ensures forall i, j :: 0 <= i < j < |call.argsData| ==> call.argsData[i] != call.argsData[j]
    ensures call.endpoint == HistoricalStockPrices(startDate, endDate)
  {
    DownloaderCall(HistoricalStockPrices(startDate, endDate), lookup.keys,
                   IntKwargs([(ChildConcurrency, 5), (Processes, 1), (QueueCount, 1)]))
  }

  /** `lookup_multi_ticker_ids(tickers, stock=True)`: (ticker, id) rows. */
  type TickerIdQuery = seq<string> -> seq<(string, int)>

  /**
   * The argument resolution shared by download_options_contracts and
   * fetch_options_contracts: InvalidArgs when neither input is given; the
   * lookup's keys when only the lookup is; a lookup built from the id rows
   * of the given tickers when only the tickers are; both unchanged otherwise.
   */
  function ResolveContractArgs(tickers: seq<string>, lookup: TickerLookup, idQuery: TickerIdQuery)
    : (r: Result<(seq<string>, TickerLookup)>)
    requires Wf(lookup)
    ensures r.Err? <==> tickers == [] && !Truthy(lookup)
    ensures r.Err? ==> r.error == InvalidArgs
    ensures r.Ok? ==> r.value.0 != [] && Wf(r.value.1)
    ensures r.Ok? && tickers == [] ==> r.value == (lookup.keys, lookup)
    ensures r.Ok? && tickers != [] && Truthy(lookup) ==> r.value == (tickers, lookup)
    ensures r.Ok? && tickers != [] && !Truthy(lookup) ==>
              var rows := idQuery(tickers);
              && r.value.0 == tickers
              && r.value.1.entries.Keys == KeysOf(rows)
              && forall i :: 0 <= i < |rows| && LastWith(rows, i) ==> r.value.1.entries[rows[i].0] == rows[i].1
  {
    if tickers == [] && !Truthy(lookup) then Err(InvalidArgs)
    else if tickers == [] then Ok((lookup.keys, lookup))
    else if !Truthy(lookup) then
      FromPairsSemantics(idQuery(tickers));
      Ok((tickers, FromPairs(idQuery(tickers))))
    else Ok((tickers, lookup))
  }

  /** download_options_contracts: one OptionsContracts download over the resolved tickers. */
  function DownloadOptionsContracts(tickers: seq<string>, lookup: TickerLookup, monthsHist: int, idQuery: TickerIdQuery)
    : (r: Result<DownloaderCall<string>>)
    requires Wf(lookup)
    ensures r.Err? <==> tickers == [] && !Truthy(lookup)
    ensures r.Err? ==> r.error == InvalidArgs
    ensures r.Ok? ==> var resolved := ResolveContractArgs(tickers, lookup, idQuery).value;
              && r.value.endpoint == OptionsContracts(resolved.0, resolved.1, monthsHist)
              && r.value.argsData == resolved.0
              && r.value.poolKwargs.entries == map[]
  {
    match ResolveContractArgs(tickers, lookup, idQuery)
    case Err(e) => Err(e)
    case Ok((ts, l)) => Ok(DownloaderCall(OptionsContracts(ts, l, monthsHist), ts, Empty()))
  }

  /** `[s[i:i + size] for i in range(0, len(s), size)]`. */
  function Chunks<T>(s: seq<T>, size: int): seq<seq<T>>
    requires size > 0
    decreases |s|
  {
    if s == [] then []
    else if |s| <= size then [s]
    else [s[..size]] + Chunks(s[size..], size)
  }

  function Flatten<T>(cs: seq<seq<T>>): seq<T>
  {
    if cs == [] then [] else cs[0] + Flatten(cs[1..])
  }

  /** The chunks concatenate back to the input. */
  lemma {:induction false} ChunksFlatten<T>(s: seq<T>, size: int)
    requires size > 0
    ensures Flatten(Chunks(s, size)) == s
    decreases |s|
  {
    if |s| > size {
      ChunksFlatten(s[size..], size);
      assert s == s[..size] + s[size..];
    }
  }

  /** There are ceil(|s| / size) chunks. */
  lemma {:induction false} ChunksCount<T>(s: seq<T>, size: int)
    requires size > 0
    ensures (|Chunks(s, size)| - 1) * size < |s| <= |Chunks(s, size)| * size
    ensures |Chunks(s, size)| == CeilDiv(|s|, size)
    decreases |s|
  {
    var c := |Chunks(s, size)|;
    if |s| > size {
      ChunksCount(s[size..], size);
      assert c * size == (c - 1) * size + size;
      assert (c - 1) * size == (c - 2) * size + size;
    }
    CeilDivUnique(|s|, size, c);
  }

  /** The j-th chunk is the slice that starts at j * size. */
  lemma {:induction false} ChunkAt<T>(s: seq<T>, size: int, j: int)
    requires size > 0 && 0 <= j < |Chunks(s, size)|
    ensures j * size < |s|
    ensures Chunks(s, size)[j] == s[j * size .. Min(|s|, j * size + size)]
    decreases j
  {
    if j > 0 {
      assert |s| > size;
      var rest := s[size..];
      var cs := Chunks(rest, size);
      assert Chunks(s, size) == [s[..size]] + cs;
      assert Chunks(s, size)[j] == cs[j - 1];
      ChunkAt(rest, size, j - 1);
      var off := (j - 1) * size;
      assert j * size == off + size;
      var hi := Min(|rest|, off + size);
      assert Min(|s|, j * size + size) == hi + size;
      SliceOfDrop(s, size, off, hi);
    }
  }

  lemma SliceOfDrop<T>(s: seq<T>, d: int, lo: int, hi: int)
    requires 0 <= d <= |s| && 0 <= lo <= hi <= |s| - d
    ensures s[d..][lo .. hi] == s[lo + d .. hi + d]
  {
  }

  /** Every chunk is non-empty and at most `size` long; all but the last are exactly `size` long. */
  lemma ChunkSizes<T>(s: seq<T>, size: int)
    requires size > 0
    ensures forall j :: 0 <= j < |Chunks(s, size)| ==>
              && 0 < |Chunks(s, size)[j]| <= size
              && (j < |Chunks(s, size)| - 1 ==> |Chunks(s, size)[j]| == size)
  {
    var cs := Chunks(s, size);
    forall j | 0 <= j < |cs|
      ensures 0 < |cs[j]| <= size && (j < |cs| - 1 ==> |cs[j]| == size)
    {
      ChunkAt(s, size, j);
      if j < |cs| - 1 {
        ChunkAt(s, size, j + 1);
        assert (j + 1) * size == j * size + size;
      }
    }
  }

  /** 2500 option tickers make three batches: 1000, 1000 and 500. */
  lemma ChunksOf2500<T>(s: seq<T>)
    requires |s| == 2500
    ensures |Chunks(s, 1000)| == 3
    ensures |Chunks(s, 1000)[0]| == 1000 && |Chunks(s, 1000)[1]| == 1000 && |Chunks(s, 1000)[2]| == 500
  {
    ChunksCount(s, 1000);
    ChunkSizes(s, 1000);
    ChunkAt(s, 1000, 2);
  }

  const QuoteBatchSize: int := 1000

  /** The api_pool_downloader call made for one batch of option quotes. */
  function QuotesBatchCall(batch: seq<OptionTicker>, monthsHist: int): DownloaderCall<OptionTicker>
  {
    DownloaderCall(HistoricalQuotes(monthsHist, None), batch, IntKwargs([(ChildConcurrency, 250)]))
  }

  /**
   * download_options_quotes: one downloader call per consecutive slice of at
   * most 1000 option tickers, in order; `batch_num` starts at 1 and counts
   * the slices.
   */
  method DownloadOptionsQuotes(oTickers: seq<OptionTicker>, monthsHist: int)
    returns (calls: seq<DownloaderCall<OptionTicker>>, batchNum: int)
    ensures |calls| == |Chunks(oTickers, QuoteBatchSize)|
    ensures forall j :: 0 <= j < |calls| ==> calls[j] == QuotesBatchCall(Chunks(oTickers, QuoteBatchSize)[j], monthsHist)
    ensures batchNum == 1 + |calls|
  {
    ghost var cs := Chunks(oTickers, QuoteBatchSize);
    ChunksCount(oTickers, QuoteBatchSize);
    var step := QuoteBatchSize;
    batchNum := 1;
    calls := [];
    var i := 0;
    while i < |oTickers|
      invariant 0 <= i && i == step * |calls| && |calls| <= |cs|
      invariant i < |oTickers| <==> |calls| < |cs|
      invariant forall j :: 0 <= j < |calls| ==> calls[j] == QuotesBatchCall(cs[j], monthsHist)
      invariant batchNum == 1 + |calls|
      decreases |oTickers| - i
    {
      var batch := oTickers[i .. Min(|oTickers|, i + step)];
      ChunkAt(oTickers, step, |calls|);
      batchNum := batchNum + 1;
      calls := calls + [QuotesBatchCall(batch, monthsHist)];
      i := i + step;
    }
  }
}
