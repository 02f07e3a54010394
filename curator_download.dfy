/**
 * The option-quotes download of the curator package: the o_tickers of one
 * underlying are kept, cut into batches of 1000, and each batch is handed
 * to a quote pool that also receives the paginator's per-o_ticker mapping.
 * The remaining downloaders of that package are the ones in module Download.
 */
module CuratorDownload {
  import opened Common
  import opened PyDict
  import opened PoolKwargs
  import opened DbUtils
  import opened Download

  /** `[x for x in os if x.underlying_ticker == ticker]`. */
  function FilterUnderlying(ticker: string, os: seq<OptionTicker>): (r: seq<OptionTicker>)
    ensures |r| <= |os|
  {
    if os == [] then []
    else if os[0].underlyingTicker == ticker then [os[0]] + FilterUnderlying(ticker, os[1..])
    else FilterUnderlying(ticker, os[1..])
  }

  /** The filter keeps exactly the o_tickers of `ticker`, each as often as the input holds it. */
  lemma {:induction false} FilterKeeps(ticker: string, os: seq<OptionTicker>)
    ensures forall x :: x in FilterUnderlying(ticker, os) <==> x in os && x.underlyingTicker == ticker
    ensures forall x :: multiset(FilterUnderlying(ticker, os))[x]
                        == if x.underlyingTicker == ticker then multiset(os)[x] else 0
  {
    if os != [] {
      FilterKeeps(ticker, os[1..]);
      assert os == [os[0]] + os[1..];
    }
  }

  /** The filter keeps the input order: filtering a concatenation concatenates the filtered parts. */
  lemma {:induction false} FilterAppend(ticker: string, a: seq<OptionTicker>, b: seq<OptionTicker>)
    ensures FilterUnderlying(ticker, a + b) == FilterUnderlying(ticker, a) + FilterUnderlying(ticker, b)
  {
    if a == [] {
      assert a + b == b;
    } else {
      assert (a + b)[0] == a[0] && (a + b)[1..] == a[1..] + b;
      FilterAppend(ticker, a[1..], b);
    }
  }

  /** `{x.o_ticker: x.id for x in o_tickers}`, over the whole input, not only the kept o_tickers. */
  function QuoteLookup(oTickers: seq<OptionTicker>): (lookup: TickerLookup)
    ensures Wf(lookup)
    ensures lookup.entries.Keys == (set x | x in oTickers :: x.oTicker)
    ensures forall i :: 0 <= i < |oTickers| && LastWith(IdPairs(oTickers), i) ==> lookup.entries[oTickers[i].oTicker] == oTickers[i].id
  {
    var ps := IdPairs(oTickers);
    FromPairsSemantics(ps);
    assert KeysOf(ps) == set x | x in oTickers :: x.oTicker by {
      forall x | x in oTickers ensures x.oTicker in KeysOf(ps) {
        var i :| 0 <= i < |oTickers| && oTickers[i] == x;
        assert ps[i].0 == x.oTicker;
      }
    }
    FromPairs(ps)
  }

  function IdPairs(oTickers: seq<OptionTicker>): (ps: seq<(string, int)>)
    ensures |ps| == |oTickers| && forall i :: 0 <= i < |oTickers| ==> ps[i] == (oTickers[i].oTicker, oTickers[i].id)
  {
    seq(|oTickers|, i requires 0 <= i < |oTickers| => (oTickers[i].oTicker, oTickers[i].id))
  }

  /** Every o_ticker of a kept batch has an id in the lookup the paginator is built with. */
  lemma LookupCoversKept(ticker: string, oTickers: seq<OptionTicker>)
    ensures forall x :: x in FilterUnderlying(ticker, oTickers) ==> x.oTicker in QuoteLookup(oTickers).entries
  {
    FilterKeeps(ticker, oTickers);
  }

  /** The keyword under which QuotePool receives the paginator's mapping. */
  const MappingKw: Kw := OtherKw("o_ticker_count_mapping")

  /** What api_quote_downloader does once the request arguments and the mapping are generated. */
  datatype QuoteDispatch<A, M> =
    | QuoteSkipped
    | QuotePoolRun(config: Kwargs, mapping: M, tasks: seq<A>)

  /**
   * api_quote_downloader after `generate_request_args` returned
   * `(urlArgs, mapping)`: no pool for an empty list; otherwise the session
   * keys are added and the defaults laid under, and the quote pool is given
   * the mapping as one more keyword, which fails when the config already
   * holds that keyword.
   */
  function ApiQuoteDownloader<A, M>(urlArgs: seq<A>, mapping: M, poolKwargs: Kwargs, defaults: Kwargs, baseUrl: string)
    : (r: Result<QuoteDispatch<A, M>>)
    requires Wf(poolKwargs) && Wf(defaults)
    ensures urlArgs == [] ==> r == Ok(QuoteSkipped)
    ensures r.Err? <==>
              (urlArgs != [] &&
               (InitClientSession in poolKwargs.entries || SessionBaseUrl in poolKwargs.entries
                || MappingKw in poolKwargs.entries || MappingKw in defaults.entries))
    ensures r.Err? ==> r.error.DuplicateKeyword?
    ensures urlArgs != [] && r.Ok? ==>
              && r.value.QuotePoolRun? && r.value.tasks == urlArgs && r.value.mapping == mapping
              && MappingKw !in r.value.config.entries
              && r.value.config.entries.Keys
                 == defaults.entries.Keys + poolKwargs.entries.Keys + {InitClientSession, SessionBaseUrl}
              && r.value.config.entries[InitClientSession] == BoolArg(true)
              && r.value.config.entries[SessionBaseUrl] == StrArg(baseUrl)
              && forall k :: k in poolKwargs.entries ==> r.value.config.entries[k] == poolKwargs.entries[k]
  {
    if urlArgs == [] then Ok(QuoteSkipped)
    else
      match SessionPoolConfig(defaults, poolKwargs, baseUrl)
      case Err(e) => Err(e)
      case Ok(config) =>
        if MappingKw in config.entries then Err(DuplicateKeyword(MappingKw.Name()))
        else Ok(QuotePoolRun(config, mapping, urlArgs))
  }

  /** `{"childconcurrency": 14, "maxtasksperchild": 1000, "processes": 30}`. */
  function QuotePoolKwargs(): Kwargs
  {
    IntKwargs([(ChildConcurrency, 14), (MaxTasksPerChild, 1000), (Processes, 30)])
  }

  /** The api_quote_downloader call made for one batch. */
  function QuoteBatchCall(batch: seq<OptionTicker>, monthsHist: int, lookup: TickerLookup): DownloaderCall<OptionTicker>
  {
    DownloaderCall(HistoricalQuotes(monthsHist, Some(lookup)), batch, QuotePoolKwargs())
  }

  /**
   * download_options_quotes: the o_tickers of `ticker`, in input order, cut
   * into consecutive batches of at most 1000, one quote downloader call per
   * batch, all with the same paginator built from the lookup of every input
   * o_ticker.
   */
  method DownloadOptionsQuotes(ticker: string, oTickers: seq<OptionTicker>, monthsHist: int)
    returns (calls: seq<DownloaderCall<OptionTicker>>)
    ensures |calls| == |Chunks(FilterUnderlying(ticker, oTickers), QuoteBatchSize)|
    ensures forall j :: 0 <= j < |calls| ==>
              calls[j] == QuoteBatchCall(Chunks(FilterUnderlying(ticker, oTickers), QuoteBatchSize)[j],
                                         monthsHist, QuoteLookup(oTickers))
  {
    var oTickerLookup := QuoteLookup(oTickers);
    var batchOTickers := FilterUnderlying(ticker, oTickers);
    calls := DispatchQuoteBatches(batchOTickers, monthsHist, oTickerLookup);
  }

  /** The `for i in range(0, len(batch_o_tickers), 1000)` loop of download_options_quotes. */
  method DispatchQuoteBatches(batchOTickers: seq<OptionTicker>, monthsHist: int, lookup: TickerLookup)
    returns (calls: seq<DownloaderCall<OptionTicker>>)
    ensures |calls| == |Chunks(batchOTickers, QuoteBatchSize)|
    ensures forall j :: 0 <= j < |calls| ==>
              calls[j] == QuoteBatchCall(Chunks(batchOTickers, QuoteBatchSize)[j], monthsHist, lookup)
  {
    ghost var cs := Chunks(batchOTickers, QuoteBatchSize);
    ChunksCount(batchOTickers, QuoteBatchSize);
    var step := QuoteBatchSize;
    calls := [];
    var i := 0;
    while i < |batchOTickers|
      invariant 0 <= i && i == step * |calls| && |calls| <= |cs|
      invariant i < |batchOTickers| <==> |calls| < |cs|
      invariant forall j :: 0 <= j < |calls| ==> calls[j] == QuoteBatchCall(cs[j], monthsHist, lookup)
      decreases |batchOTickers| - i
    {
      var smallBatch := batchOTickers[i .. Min(|batchOTickers|, i + step)];
      ChunkAt(batchOTickers, step, |calls|);
      calls := calls + [QuoteBatchCall(smallBatch, monthsHist, lookup)];
      i := i + step;
    }
  }
}
