/**
 * The stage sequencer of the data pipeline: import_partial runs the
 * selected stages 1..6 (stock metadata, stock prices, options contracts,
 * options prices, snapshots, quotes) in that order, pulling the ticker
 * lookup and the o_ticker lookup from the database only when no earlier
 * stage left one behind; import_all runs a fixed sequence.
 *
 * Each collaborator call becomes an entry of a call trace. The two
 * database reads whose results steer the sequencer are `db`'s queries;
 * what they return may depend on the calls made before them, since the
 * uploads change the database.
 */
module PipelineOrchestrator {
  import opened Common
  import opened PyDict
  import opened DbUtils

  /** One call the orchestrator makes, with the arguments it passes. */
  datatype Call =
    | DownloadStockMetadata(tickers: seq<string>, allTickers: bool)
    | UploadStockMetadata(tickers: seq<string>, allTickers: bool)
    | PullTickers(tickers: seq<string>, allTickers: bool)
    | DownloadStockPrices(lookup: TickerLookup, startDate: int, endDate: int)
    | UploadStockPrices(lookup: TickerLookup)
    | DownloadOptionsContracts(lookup: TickerLookup, monthsHist: int)
    | UploadOptionsContracts(lookup: TickerLookup, monthsHist: int)
    | GenerateOTickerLookup(tickers: seq<string>, allTickers: bool, unexpired: bool)
    | DownloadOptionsPrices(oTickers: seq<OptionTicker>, monthsHist: int)
    | UploadOptionsPrices(oLookup: OTickerLookup)
    | DownloadOptionsSnapshots(oTickers: seq<OptionTicker>)
    | UploadOptionsSnapshots(oLookup: OTickerLookup)
    | DownloadOptionsQuotes(oTickers: seq<OptionTicker>, monthsHist: int)
    | UploadOptionsQuotes(oLookup: OTickerLookup)
    | DeleteStockTicker(ticker: string)
  {
    predicate IsDownload()
    {
      DownloadStockMetadata? || DownloadStockPrices? || DownloadOptionsContracts?
      || DownloadOptionsPrices? || DownloadOptionsSnapshots? || DownloadOptionsQuotes?
    }

    predicate IsUpload()
    {
      UploadStockMetadata? || UploadStockPrices? || UploadOptionsContracts?
      || UploadOptionsPrices? || UploadOptionsSnapshots? || UploadOptionsQuotes?
    }

    /** A database read whose result the next download is given. */
    predicate IsQuery()
    {
      PullTickers? || GenerateOTickerLookup?
    }

    /** The stage a download or upload belongs to; 0 for the other calls. */
    function Stage(): int
    {
      if DownloadStockMetadata? || UploadStockMetadata? then 1
      else if DownloadStockPrices? || UploadStockPrices? then 2
      else if DownloadOptionsContracts? || UploadOptionsContracts? then 3
      else if DownloadOptionsPrices? || UploadOptionsPrices? then 4
      else if DownloadOptionsSnapshots? || UploadOptionsSnapshots? then 5
      else if DownloadOptionsQuotes? || UploadOptionsQuotes? then 6
      else 0
    }
  }

  /** The arguments of one import. Dates are opaque instants. */
  datatype Run = Run(tickers: seq<string>, startDate: int, endDate: int, monthsHist: int)

  /** `all_ = True if len(tickers) == 0 else False`. */
  function AllTickers(run: Run): bool
  {
    |run.tickers| == 0
  }

  /** The database reads, given the calls made so far. */
  datatype Db = Db(stocks: seq<Call> -> StockQuery, options: seq<Call> -> OptionQuery)

  /** The locals `ticker_lookup` and `o_tickers`; None and an empty dict are both falsy, so both start empty. */
  datatype Memo = Memo(tickerLookup: TickerLookup, oTickers: OTickerLookup)

  ghost predicate MemoWf(m: Memo)
  {
    Wf(m.tickerLookup) && Wf(m.oTickers)
  }

  /** The calls made so far, the locals, and the exception that ended the import, if one did. */
  datatype Progress = Progress(trace: seq<Call>, memo: Memo, raised: Option<Error>)

  function Start(): (p: Progress)
    ensures MemoWf(p.memo) && p.trace == [] && p.raised.None?
  {
    Progress([], Memo(Empty(), Empty()), None)
  }

  /** `ticker_lookup = await pull_tickers_from_db(tickers, all_)`. */
  function Pull(run: Run, db: Db, p: Progress): (q: Progress)
    requires MemoWf(p.memo)
    ensures MemoWf(q.memo) && q.memo.oTickers == p.memo.oTickers && q.raised == p.raised
    ensures q.trace == p.trace + [PullTickers(run.tickers, AllTickers(run))]
  {
    var lookup := PullTickersFromDb(db.stocks(p.trace), run.tickers, AllTickers(run));
    Progress(p.trace + [PullTickers(run.tickers, AllTickers(run))], p.memo.(tickerLookup := lookup), p.raised)
  }

  /** `o_tickers = await generate_o_ticker_lookup(tickers, all_=all_, unexpired=...)`. */
  function Generate(run: Run, db: Db, p: Progress, unexpired: bool): (q: Progress)
    requires MemoWf(p.memo)
    ensures MemoWf(q.memo) && q.memo.tickerLookup == p.memo.tickerLookup && q.raised == p.raised
    ensures q.trace == p.trace + [GenerateOTickerLookup(run.tickers, AllTickers(run), unexpired)]
  {
    var oTickers := DbUtils.GenerateOTickerLookup(db.options(p.trace), run.tickers, AllTickers(run), unexpired);
    Progress(p.trace + [GenerateOTickerLookup(run.tickers, AllTickers(run), unexpired)],
             p.memo.(oTickers := oTickers), p.raised)
  }

  function Append(p: Progress, calls: seq<Call>): Progress
  {
    p.(trace := p.trace + calls)
  }

  /** Stage 1: stock metadata download and upload. */
  function MetadataStage(run: Run, p: Progress): Progress
  {
    Append(p, [DownloadStockMetadata(run.tickers, AllTickers(run)), UploadStockMetadata(run.tickers, AllTickers(run))])
  }

  /** Stage 2: the ticker lookup is pulled afresh, then the stock prices are downloaded and uploaded with it. */
  function StockPricesStage(run: Run, db: Db, p: Progress): (q: Progress)
    requires MemoWf(p.memo)
    ensures MemoWf(q.memo)
  {
    var q := Pull(run, db, p);
    var lookup := q.memo.tickerLookup;
    Append(q, [DownloadStockPrices(lookup, run.startDate, run.endDate), UploadStockPrices(lookup)])
  }

  /**
   * Stage 3: the lookup is pulled only when none is held; it is handed to
   * download_options_contracts without tickers, which raises InvalidArgs
   * when the lookup is empty, so that the upload is not reached.
   */
  function ContractsStage(run: Run, db: Db, p: Progress): (q: Progress)
    requires MemoWf(p.memo)
    ensures MemoWf(q.memo)
  {
    var q := if !Truthy(p.memo.tickerLookup) then Pull(run, db, p) else p;
    var lookup := q.memo.tickerLookup;
    if !Truthy(lookup) then
      Append(q, [DownloadOptionsContracts(lookup, run.monthsHist)]).(raised := Some(InvalidArgs))
    else
      Append(q, [DownloadOptionsContracts(lookup, run.monthsHist), UploadOptionsContracts(lookup, run.monthsHist)])
  }

  /** Stage 4: the o_ticker lookup is generated afresh, without `unexpired`, then the option prices are fetched. */
  function OptionsPricesStage(run: Run, db: Db, p: Progress): (q: Progress)
    requires MemoWf(p.memo)
    ensures MemoWf(q.memo)
  {
    var q := Generate(run, db, p, false);
    var oTickers := q.memo.oTickers;
    Append(q, [DownloadOptionsPrices(ValueList(oTickers), run.monthsHist), UploadOptionsPrices(oTickers)])
  }

  /** Stage 5: the held o_ticker lookup, or else a fresh one of unexpired contracts, for the snapshots. */
  function SnapshotsStage(run: Run, db: Db, p: Progress): (q: Progress)
    requires MemoWf(p.memo)
    ensures MemoWf(q.memo)
  {
    var q := if !Truthy(p.memo.oTickers) then Generate(run, db, p, true) else p;
    var oTickers := q.memo.oTickers;
    Append(q, [DownloadOptionsSnapshots(ValueList(oTickers)), UploadOptionsSnapshots(oTickers)])
  }

  /** Stage 6: the held o_ticker lookup, or else a fresh one without `unexpired`, for the quotes. */
  function QuotesStage(run: Run, db: Db, p: Progress): (q: Progress)
    requires MemoWf(p.memo)
    ensures MemoWf(q.memo)
  {
    var q := if !Truthy(p.memo.oTickers) then Generate(run, db, p, false) else p;
    var oTickers := q.memo.oTickers;
    Append(q, [DownloadOptionsQuotes(ValueList(oTickers), run.monthsHist), UploadOptionsQuotes(oTickers)])
  }

  /** The block of import_partial for stage k. */
  function RunStage(k: int, run: Run, db: Db, p: Progress): (q: Progress)
    requires 1 <= k <= 6 && MemoWf(p.memo)
    ensures MemoWf(q.memo)
  {
    if k == 1 then MetadataStage(run, p)
    else if k == 2 then StockPricesStage(run, db, p)
    else if k == 3 then ContractsStage(run, db, p)
    else if k == 4 then OptionsPricesStage(run, db, p)
    else if k == 5 then SnapshotsStage(run, db, p)
    else QuotesStage(run, db, p)
  }

  /** `if k in partial:` around the block of stage k. */
  function StageIf(partial: seq<int>, k: int, run: Run, db: Db, p: Progress): (q: Progress)
    requires 1 <= k <= 6 && MemoWf(p.memo)
    ensures MemoWf(q.memo)
  {
    if k in partial then RunStage(k, run, db, p) else p
  }

  /** Stages k..6, stopping at the first exception. */
  function StagesFrom(partial: seq<int>, k: int, run: Run, db: Db, p: Progress): (q: Progress)
    requires 1 <= k <= 7 && MemoWf(p.memo)
    decreases 7 - k
  {
    if k == 7 || p.raised.Some? then p
    else StagesFrom(partial, k + 1, run, db, StageIf(partial, k, run, db, p))
  }

  /** What import_partial does: its calls, and the exception it ends with, if any. */
  function PartialRun(partial: seq<int>, run: Run, db: Db): Progress
  {
    StagesFrom(partial, 1, run, db, Start())
  }

  /** A run of import_partial that no stage ends early is the six blocks one after the other. */
  lemma PartialRunUnrolled(partial: seq<int>, run: Run, db: Db,
                           p1: Progress, p2: Progress, p3: Progress, p4: Progress, p5: Progress, p6: Progress)
    requires p1 == StageIf(partial, 1, run, db, Start()) && p1.raised.None?
    requires p2 == StageIf(partial, 2, run, db, p1) && p2.raised.None?
    requires p3 == StageIf(partial, 3, run, db, p2) && p3.raised.None?
    requires p4 == StageIf(partial, 4, run, db, p3) && p4.raised.None?
    requires p5 == StageIf(partial, 5, run, db, p4) && p5.raised.None?
    requires p6 == StageIf(partial, 6, run, db, p5)
    ensures PartialRun(partial, run, db) == p6
  {
    assert StagesFrom(partial, 6, run, db, p5) == p6;
    assert StagesFrom(partial, 4, run, db, p3) == p6;
    assert StagesFrom(partial, 2, run, db, p1) == p6;
  }

  /** A run of import_partial that stage 3 ends stops there. */
  lemma PartialRunStopsAtContracts(partial: seq<int>, run: Run, db: Db, p1: Progress, p2: Progress, p3: Progress)
    requires p1 == StageIf(partial, 1, run, db, Start()) && p1.raised.None?
    requires p2 == StageIf(partial, 2, run, db, p1) && p2.raised.None?
    requires p3 == StageIf(partial, 3, run, db, p2) && p3.raised.Some?
    ensures PartialRun(partial, run, db) == p3
  {
    assert StagesFrom(partial, 2, run, db, p1) == p3;
  }

  /**
   * import_partial: the six `if k in partial` blocks in stage order, each
   * reading and updating the locals `ticker_lookup` and `o_tickers`; the
   * InvalidArgs of stage 3 ends the import.
   */
  method ImportPartial(partial: seq<int>, run: Run, db: Db) returns (trace: seq<Call>, raised: Option<Error>)
    ensures trace == PartialRun(partial, run, db).trace
    ensures raised == PartialRun(partial, run, db).raised
  {
    var tickerLookup: TickerLookup := Empty();
    var oTickers: OTickerLookup := Empty();
    trace := [];
    raised := None;

    if 1 in partial {
      trace := MetadataBlock(run, trace);
    }
    ghost var p1 := Progress(trace, Memo(tickerLookup, oTickers), raised);
    assert p1 == StageIf(partial, 1, run, db, Start());

    if 2 in partial {
      trace, tickerLookup := StockPricesBlock(run, db, trace, tickerLookup, oTickers);
    }
    ghost var p2 := Progress(trace, Memo(tickerLookup, oTickers), raised);
    assert p2 == StageIf(partial, 2, run, db, p1);

    if 3 in partial {
      trace, tickerLookup, raised := ContractsBlock(run, db, trace, tickerLookup, oTickers);
      if raised.Some? {
        PartialRunStopsAtContracts(partial, run, db, p1, p2, Progress(trace, Memo(tickerLookup, oTickers), raised));
        return;
      }
    }
    ghost var p3 := Progress(trace, Memo(tickerLookup, oTickers), raised);
    assert p3 == StageIf(partial, 3, run, db, p2);

    if 4 in partial {
      trace, oTickers := OptionsPricesBlock(run, db, trace, tickerLookup, oTickers);
    }
    ghost var p4 := Progress(trace, Memo(tickerLookup, oTickers), raised);
    assert p4 == StageIf(partial, 4, run, db, p3);

    if 5 in partial {
      trace, oTickers := SnapshotsBlock(run, db, trace, tickerLookup, oTickers);
    }
    ghost var p5 := Progress(trace, Memo(tickerLookup, oTickers), raised);
    assert p5 == StageIf(partial, 5, run, db, p4);

    if 6 in partial {
      trace, oTickers := QuotesBlock(run, db, trace, tickerLookup, oTickers);
    }
    ghost var p6 := Progress(trace, Memo(tickerLookup, oTickers), raised);
    assert p6 == StageIf(partial, 6, run, db, p5);
    PartialRunUnrolled(partial, run, db, p1, p2, p3, p4, p5, p6);
  }

  /** `if 1 in partial:` */
  method MetadataBlock(run: Run, trace: seq<Call>) returns (trace': seq<Call>)
    ensures forall m :: Progress(trace', m, None) == MetadataStage(run, Progress(trace, m, None))
  {
    var all := |run.tickers| == 0;
    trace' := trace + [DownloadStockMetadata(run.tickers, all), UploadStockMetadata(run.tickers, all)];
  }

  /** `if 2 in partial:` */
  method StockPricesBlock(run: Run, db: Db, trace: seq<Call>, tickerLookup: TickerLookup, oTickers: OTickerLookup)
    returns (trace': seq<Call>, tickerLookup': TickerLookup)
    requires Wf(tickerLookup) && Wf(oTickers)
    ensures Wf(tickerLookup')
    ensures Progress(trace', Memo(tickerLookup', oTickers), None)
            == StockPricesStage(run, db, Progress(trace, Memo(tickerLookup, oTickers), None))
  {
    var all := |run.tickers| == 0;
    tickerLookup' := PullTickersFromDb(db.stocks(trace), run.tickers, all);
    trace' := trace + [PullTickers(run.tickers, all)];
    trace' := trace' + [DownloadStockPrices(tickerLookup', run.startDate, run.endDate), UploadStockPrices(tickerLookup')];
  }

  /** `if 3 in partial:` */
  method ContractsBlock(run: Run, db: Db, trace: seq<Call>, tickerLookup: TickerLookup, oTickers: OTickerLookup)
    returns (trace': seq<Call>, tickerLookup': TickerLookup, raised: Option<Error>)
    requires Wf(tickerLookup) && Wf(oTickers)
    ensures Wf(tickerLookup')
    ensures Progress(trace', Memo(tickerLookup', oTickers), raised)
            == ContractsStage(run, db, Progress(trace, Memo(tickerLookup, oTickers), None))
  {
    var all := |run.tickers| == 0;
    trace', tickerLookup' := trace, tickerLookup;
    raised := None;
    if !Truthy(tickerLookup') {
      tickerLookup' := PullTickersFromDb(db.stocks(trace'), run.tickers, all);
      trace' := trace' + [PullTickers(run.tickers, all)];
    }
    trace' := trace' + [DownloadOptionsContracts(tickerLookup', run.monthsHist)];
    if !Truthy(tickerLookup') {
      raised := Some(InvalidArgs);
      return;
    }
    trace' := trace' + [UploadOptionsContracts(tickerLookup', run.monthsHist)];
  }

  /** `if 4 in partial:` */
  method OptionsPricesBlock(run: Run, db: Db, trace: seq<Call>, tickerLookup: TickerLookup, oTickers: OTickerLookup)
    returns (trace': seq<Call>, oTickers': OTickerLookup)
    requires Wf(tickerLookup) && Wf(oTickers)
    ensures Wf(oTickers')
    ensures Progress(trace', Memo(tickerLookup, oTickers'), None)
            == OptionsPricesStage(run, db, Progress(trace, Memo(tickerLookup, oTickers), None))
  {
    var all := |run.tickers| == 0;
    oTickers' := DbUtils.GenerateOTickerLookup(db.options(trace), run.tickers, all, false);
    trace' := trace + [GenerateOTickerLookup(run.tickers, all, false)];
    trace' := trace' + [DownloadOptionsPrices(ValueList(oTickers'), run.monthsHist), UploadOptionsPrices(oTickers')];
  }

  /** `if 5 in partial:` */
  method SnapshotsBlock(run: Run, db: Db, trace: seq<Call>, tickerLookup: TickerLookup, oTickers: OTickerLookup)
    returns (trace': seq<Call>, oTickers': OTickerLookup)
    requires Wf(tickerLookup) && Wf(oTickers)
    ensures Wf(oTickers')
    ensures Progress(trace', Memo(tickerLookup, oTickers'), None)
            == SnapshotsStage(run, db, Progress(trace, Memo(tickerLookup, oTickers), None))
  {
    var all := |run.tickers| == 0;
    trace', oTickers' := trace, oTickers;
    if !Truthy(oTickers') {
      oTickers' := DbUtils.GenerateOTickerLookup(db.options(trace'), run.tickers, all, true);
      trace' := trace' + [GenerateOTickerLookup(run.tickers, all, true)];
    }
    trace' := trace' + [DownloadOptionsSnapshots(ValueList(oTickers')), UploadOptionsSnapshots(oTickers')];
  }

  /** `if 6 in partial:` */
  method QuotesBlock(run: Run, db: Db, trace: seq<Call>, tickerLookup: TickerLookup, oTickers: OTickerLookup)
    returns (trace': seq<Call>, oTickers': OTickerLookup)
    requires Wf(tickerLookup) && Wf(oTickers)
    ensures Wf(oTickers')
    ensures Progress(trace', Memo(tickerLookup, oTickers'), None)
            == QuotesStage(run, db, Progress(trace, Memo(tickerLookup, oTickers), None))
  {
    var all := |run.tickers| == 0;
    trace', oTickers' := trace, oTickers;
    if !Truthy(oTickers') {
      oTickers' := DbUtils.GenerateOTickerLookup(db.options(trace'), run.tickers, all, false);
      trace' := trace' + [GenerateOTickerLookup(run.tickers, all, false)];
    }
    trace' := trace' + [DownloadOptionsQuotes(ValueList(oTickers'), run.monthsHist), UploadOptionsQuotes(oTickers')];
  }
}

/** What every run of import_partial does, whatever the database answers. */
module PartialRunFacts {
  import opened Common
  import opened PyDict
  import opened DbUtils
  import opened PipelineOrchestrator

  /** Whether `partial` selects the same stages as `other`. */
  ghost predicate SameStages(partial: seq<int>, other: seq<int>)
  {
    forall k :: 1 <= k <= 6 ==> (k in partial <==> k in other)
  }

  lemma {:induction false} StagesFromSameStages(partial: seq<int>, other: seq<int>, k: int, run: Run, db: Db, p: Progress)
    requires SameStages(partial, other) && 1 <= k <= 7 && MemoWf(p.memo)
    ensures StagesFrom(partial, k, run, db, p) == StagesFrom(other, k, run, db, p)
    decreases 7 - k
  {
    if k < 7 && p.raised.None? {
      assert StageIf(partial, k, run, db, p) == StageIf(other, k, run, db, p);
      StagesFromSameStages(partial, other, k + 1, run, db, StageIf(partial, k, run, db, p));
    }
  }

  /** Only which stages are selected matters: not their order, nor repetitions, nor other numbers. */
  lemma PartialOrderIrrelevant(partial: seq<int>, other: seq<int>, run: Run, db: Db)
    requires SameStages(partial, other)
    ensures PartialRun(partial, run, db) == PartialRun(other, run, db)
  {
    StagesFromSameStages(partial, other, 1, run, db, Start());
  }

  /** A query is directly followed by the download it was made for. */
  predicate Feeds(q: Call, d: Call)
  {
    && (q.PullTickers? ==> d.DownloadStockPrices? || d.DownloadOptionsContracts?)
    && (q.GenerateOTickerLookup? ==> d.DownloadOptionsPrices? || d.DownloadOptionsSnapshots? || d.DownloadOptionsQuotes?)
  }

  /** The calls one stage k adds: possibly a query, then the download, then the upload unless the download raised. */
  ghost predicate Segment(s: seq<Call>, k: int, stopped: bool)
  {
    var body := if |s| > 0 && s[0].IsQuery() then s[1..] else s;
    && |body| == (if stopped then 1 else 2)
    && body[0].IsDownload() && body[0].Stage() == k
    && (!stopped ==> body[1].IsUpload() && body[1].Stage() == k)
    && (|s| > 0 && s[0].IsQuery() ==> Feeds(s[0], body[0]))
  }

  ghost predicate StagesSelected(t: seq<Call>, partial: seq<int>, k: int)
  {
    forall i :: 0 <= i < |t| && t[i].Stage() != 0 ==> t[i].Stage() in partial && t[i].Stage() < k
  }

  ghost predicate StagesInOrder(t: seq<Call>)
  {
    forall i, j :: 0 <= i < j < |t| && t[i].Stage() != 0 && t[j].Stage() != 0 ==>
      t[i].Stage() <= t[j].Stage() && !(t[i].IsDownload() && t[j].IsDownload() && t[i].Stage() == t[j].Stage())
  }

  ghost predicate UploadsFollow(t: seq<Call>, stopped: bool)
  {
    forall i :: 0 <= i < |t| && t[i].IsDownload() ==> FollowedByUpload(t, i, stopped)
  }

  /** Call i is followed by the upload of its stage, or ends a stopped trace. */
  ghost predicate FollowedByUpload(t: seq<Call>, i: int, stopped: bool)
    requires 0 <= i < |t|
  {
    (i + 1 < |t| && t[i + 1].IsUpload() && t[i + 1].Stage() == t[i].Stage()) || (stopped && i == |t| - 1)
  }

  ghost predicate QueriesFeed(t: seq<Call>)
  {
    forall i :: 0 <= i < |t| && t[i].IsQuery() ==> i + 1 < |t| && Feeds(t[i], t[i + 1])
  }

  ghost predicate HasDownload(t: seq<Call>, k: int)
  {
    exists i :: 0 <= i < |t| && t[i].IsDownload() && t[i].Stage() == k
  }

  ghost predicate Complete(t: seq<Call>, partial: seq<int>, k: int)
  {
    forall s :: 1 <= s < k && s in partial ==> HasDownload(t, s)
  }

  ghost predicate Shape(t: seq<Call>, partial: seq<int>, k: int, stopped: bool)
  {
    StagesSelected(t, partial, k) && StagesInOrder(t) && UploadsFollow(t, stopped) && QueriesFeed(t) && Complete(t, partial, k)
  }

  /** The facts about one segment that the shape of the whole trace needs. */
  lemma SegmentFacts(s: seq<Call>, k: int, stopped: bool)
    requires Segment(s, k, stopped)
    ensures forall i :: 0 <= i < |s| && s[i].Stage() != 0 ==> s[i].Stage() == k
    ensures forall i, j :: 0 <= i < j < |s| && s[i].IsDownload() ==> !s[j].IsDownload()
    ensures UploadsFollow(s, stopped) && QueriesFeed(s) && HasDownload(s, k)
  {
    if |s| > 0 && s[0].IsQuery() {
      assert s == [s[0]] + s[1..];
      assert s[1] == s[1..][0];
    }
  }

  lemma SelectedAppend(t: seq<Call>, s: seq<Call>, partial: seq<int>, k: int)
    requires StagesSelected(t, partial, k) && k in partial
    requires forall i :: 0 <= i < |s| && s[i].Stage() != 0 ==> s[i].Stage() == k
    ensures StagesSelected(t + s, partial, k + 1)
  {
    forall i | 0 <= i < |t + s| && (t + s)[i].Stage() != 0
      ensures (t + s)[i].Stage() in partial && (t + s)[i].Stage() < k + 1
    {
      if i >= |t| {
        assert (t + s)[i] == s[i - |t|];
      }
    }
  }

  lemma OrderAppend(t: seq<Call>, s: seq<Call>, partial: seq<int>, k: int)
    requires StagesInOrder(t) && StagesSelected(t, partial, k)
    requires forall i :: 0 <= i < |s| && s[i].Stage() != 0 ==> s[i].Stage() == k
    requires forall i, j :: 0 <= i < j < |s| && s[i].IsDownload() ==> !s[j].IsDownload()
    ensures StagesInOrder(t + s)
  {
    var u := t + s;
    forall i, j | 0 <= i < j < |u| && u[i].Stage() != 0 && u[j].Stage() != 0
      ensures u[i].Stage() <= u[j].Stage() && !(u[i].IsDownload() && u[j].IsDownload() && u[i].Stage() == u[j].Stage())
    {
      if j >= |t| {
        assert u[j] == s[j - |t|];
        if i >= |t| {
          assert u[i] == s[i - |t|];
        }
      }
    }
  }

  lemma FollowAppend(t: seq<Call>, s: seq<Call>, stopped: bool)
    requires UploadsFollow(t, false) && UploadsFollow(s, stopped)
    ensures UploadsFollow(t + s, stopped)
  {
    var u := t + s;
    forall i | 0 <= i < |u| && u[i].IsDownload()
      ensures FollowedByUpload(u, i, stopped)
    {
      if i >= |t| {
        var j := i - |t|;
        assert u[i] == s[j];
        assert s[j].IsDownload() && FollowedByUpload(s, j, stopped);
        if j + 1 < |s| {
          assert u[i + 1] == s[j + 1];
        }
      } else {
        assert u[i] == t[i] && t[i].IsDownload() && FollowedByUpload(t, i, false);
        assert u[i + 1] == t[i + 1];
      }
    }
  }

  lemma FeedAppend(t: seq<Call>, s: seq<Call>)
    requires QueriesFeed(t) && QueriesFeed(s)
    ensures QueriesFeed(t + s)
  {
    var u := t + s;
    forall i | 0 <= i < |u| && u[i].IsQuery()
      ensures i + 1 < |u| && Feeds(u[i], u[i + 1])
    {
      if i >= |t| {
        assert u[i] == s[i - |t|];
        assert u[i + 1] == s[i + 1 - |t|];
      }
    }
  }

  lemma CompleteAppend(t: seq<Call>, s: seq<Call>, partial: seq<int>, k: int)
    requires Complete(t, partial, k) && HasDownload(s, k)
    ensures Complete(t + s, partial, k + 1)
  {
    var u := t + s;
    forall x | 1 <= x < k + 1 && x in partial
      ensures HasDownload(u, x)
    {
      if x == k {
        var i :| 0 <= i < |s| && s[i].IsDownload() && s[i].Stage() == k;
        assert u[|t| + i] == s[i];
      } else {
        var i :| 0 <= i < |t| && t[i].IsDownload() && t[i].Stage() == x;
        assert u[i] == t[i];
      }
    }
  }

  /** Appending the segment of a selected stage k keeps the shape, now for the stages below k + 1. */
  lemma SegmentAppend(t: seq<Call>, s: seq<Call>, partial: seq<int>, k: int, stopped: bool)
    requires Shape(t, partial, k, false) && k in partial && Segment(s, k, stopped)
    ensures Shape(t + s, partial, k + 1, stopped)
  {
    SegmentFacts(s, k, stopped);
    SelectedAppend(t, s, partial, k);
    OrderAppend(t, s, partial, k);
    FollowAppend(t, s, stopped);
    FeedAppend(t, s);
    CompleteAppend(t, s, partial, k);
  }

  /** An import that ended with an exception ended with InvalidArgs, right after handing an empty lookup to the contracts download. */
  ghost predicate StoppedByContracts(p: Progress)
  {
    p.raised.Some? ==>
      && p.raised == Some(InvalidArgs) && |p.trace| > 0
      && p.trace[|p.trace| - 1].DownloadOptionsContracts? && !Truthy(p.trace[|p.trace| - 1].lookup)
  }

  /**
   * A call passes the import's own arguments: its tickers, `all_` exactly
   * when the tickers are empty, its dates and its months of history.
   */
  predicate FromRun(c: Call, run: Run)
  {
    && (c.DownloadStockMetadata? || c.UploadStockMetadata? || c.PullTickers? || c.GenerateOTickerLookup? ==>
          c.tickers == run.tickers && c.allTickers == (|run.tickers| == 0))
    && (c.DownloadStockPrices? ==> c.startDate == run.startDate && c.endDate == run.endDate)
    && (c.DownloadOptionsContracts? || c.UploadOptionsContracts? || c.DownloadOptionsPrices? || c.DownloadOptionsQuotes? ==>
          c.monthsHist == run.monthsHist)
  }

  ghost predicate AllFromRun(t: seq<Call>, run: Run)
  {
    forall i :: 0 <= i < |t| ==> FromRun(t[i], run)
  }

  /** What the block of stage k adds to the trace: a segment, and only stage 3 can end the import. */
  ghost predicate AddsSegment(p: Progress, q: Progress, k: int)
  {
    && p.trace <= q.trace
    && Segment(q.trace[|p.trace|..], k, q.raised.Some?)
    && (q.raised.Some? ==> k == 3)
    && StoppedByContracts(q)
  }

  lemma AppendSegment(p: Progress, q: Progress, s: seq<Call>, k: int)
    requires q.trace == p.trace + s && Segment(s, k, q.raised.Some?)
    requires q.raised.Some? ==> k == 3
    requires StoppedByContracts(q)
    ensures AddsSegment(p, q, k)
  {
    assert q.trace[|p.trace|..] == s;
  }

  lemma MetadataSegment(run: Run, p: Progress)
    requires p.raised.None?
    ensures AddsSegment(p, MetadataStage(run, p), 1)
  {
    var all := AllTickers(run);
    AppendSegment(p, MetadataStage(run, p), [DownloadStockMetadata(run.tickers, all), UploadStockMetadata(run.tickers, all)], 1);
  }

  lemma StockPricesSegment(run: Run, db: Db, p: Progress)
    requires MemoWf(p.memo) && p.raised.None?
    ensures AddsSegment(p, StockPricesStage(run, db, p), 2)
  {
    var q := StockPricesStage(run, db, p);
    var l := Pull(run, db, p).memo.tickerLookup;
    var g := PullTickers(run.tickers, AllTickers(run));
    var d := DownloadStockPrices(l, run.startDate, run.endDate);
    var u := UploadStockPrices(l);
    assert q.trace == p.trace + [g, d, u];
    QueriedSegment(g, d, u, 2);
    AppendSegment(p, q, [g, d, u], 2);
  }

  lemma ContractsSegment(run: Run, db: Db, p: Progress)
    requires MemoWf(p.memo) && p.raised.None?
    ensures AddsSegment(p, ContractsStage(run, db, p), 3)
  {
    var q0 := if !Truthy(p.memo.tickerLookup) then Pull(run, db, p) else p;
    var pre := if !Truthy(p.memo.tickerLookup) then [PullTickers(run.tickers, AllTickers(run))] else [];
    var l := q0.memo.tickerLookup;
    var body := if !Truthy(l) then [DownloadOptionsContracts(l, run.monthsHist)]
                else [DownloadOptionsContracts(l, run.monthsHist), UploadOptionsContracts(l, run.monthsHist)];
    assert q0.trace == p.trace + pre;
    assert (pre + body)[0].IsQuery() <==> pre != [];
    assert (pre + body)[|pre|..] == body;
    AppendSegment(p, ContractsStage(run, db, p), pre + body, 3);
  }

  lemma OptionsPricesSegment(run: Run, db: Db, p: Progress)
    requires MemoWf(p.memo) && p.raised.None?
    ensures AddsSegment(p, OptionsPricesStage(run, db, p), 4)
  {
    var q0 := Generate(run, db, p, false);
    var o := q0.memo.oTickers;
    var d := DownloadOptionsPrices(ValueList(o), run.monthsHist);
    var u := UploadOptionsPrices(o);
    QueriedStageSegment(p, q0, OptionsPricesStage(run, db, p), d, u, 4);
  }

  /** A stage that queried, then appended a download and its upload of stage k, adds a complete segment. */
  lemma QueriedStageSegment(p: Progress, q0: Progress, q: Progress, d: Call, u: Call, k: int)
    requires |q0.trace| == |p.trace| + 1 && q0.trace[..|p.trace|] == p.trace && q0.raised.None?
    requires q == Append(q0, [d, u])
    requires q0.trace[|p.trace|].IsQuery() && Feeds(q0.trace[|p.trace|], d)
    requires d.IsDownload() && d.Stage() == k && u.IsUpload() && u.Stage() == k
    ensures AddsSegment(p, q, k)
  {
    var g := q0.trace[|p.trace|];
    assert q0.trace == p.trace + [g];
    QueriedSegment(g, d, u, k);
    AppendSegment(p, q, [g, d, u], k);
  }

  /** A query that feeds a download of stage k, followed by the upload of stage k, is a complete segment. */
  lemma QueriedSegment(g: Call, d: Call, u: Call, k: int)
    requires g.IsQuery() && Feeds(g, d)
    requires d.IsDownload() && d.Stage() == k && u.IsUpload() && u.Stage() == k
    ensures Segment([g, d, u], k, false)
  {
    assert [g, d, u][1..] == [d, u];
  }

  lemma SnapshotsSegment(run: Run, db: Db, p: Progress)
    requires MemoWf(p.memo) && p.raised.None?
    ensures AddsSegment(p, SnapshotsStage(run, db, p), 5)
  {
    var q0 := if !Truthy(p.memo.oTickers) then Generate(run, db, p, true) else p;
    var pre := if !Truthy(p.memo.oTickers) then [GenerateOTickerLookup(run.tickers, AllTickers(run), true)] else [];
    var o := q0.memo.oTickers;
    var body := [DownloadOptionsSnapshots(ValueList(o)), UploadOptionsSnapshots(o)];
    assert q0.trace == p.trace + pre;
    assert (pre + body)[0].IsQuery() <==> pre != [];
    assert (pre + body)[|pre|..] == body;
    AppendSegment(p, SnapshotsStage(run, db, p), pre + body, 5);
  }

  lemma QuotesSegment(run: Run, db: Db, p: Progress)
    requires MemoWf(p.memo) && p.raised.None?
    ensures AddsSegment(p, QuotesStage(run, db, p), 6)
  {
    var q0 := if !Truthy(p.memo.oTickers) then Generate(run, db, p, false) else p;
    var pre := if !Truthy(p.memo.oTickers) then [GenerateOTickerLookup(run.tickers, AllTickers(run), false)] else [];
    var o := q0.memo.oTickers;
    var body := [DownloadOptionsQuotes(ValueList(o), run.monthsHist), UploadOptionsQuotes(o)];
    assert q0.trace == p.trace + pre;
    assert (pre + body)[0].IsQuery() <==> pre != [];
    assert (pre + body)[|pre|..] == body;
    AppendSegment(p, QuotesStage(run, db, p), pre + body, 6);
  }

  lemma StageSegment(k: int, run: Run, db: Db, p: Progress)
    requires 1 <= k <= 6 && MemoWf(p.memo) && p.raised.None?
    ensures AddsSegment(p, RunStage(k, run, db, p), k)
  {
    if k == 1 { MetadataSegment(run, p); }
    else if k == 2 { StockPricesSegment(run, db, p); }
    else if k == 3 { ContractsSegment(run, db, p); }
    else if k == 4 { OptionsPricesSegment(run, db, p); }
    else if k == 5 { SnapshotsSegment(run, db, p); }
    else { QuotesSegment(run, db, p); }
  }

  lemma FromRunAppend(t: seq<Call>, s: seq<Call>, run: Run)
    requires AllFromRun(t, run) && forall c :: c in s ==> FromRun(c, run)
    ensures AllFromRun(t + s, run)
  {
    forall i | 0 <= i < |t + s| ensures FromRun((t + s)[i], run) {
      if i >= |t| {
        assert (t + s)[i] == s[i - |t|];
      }
    }
  }

  /** Every block passes the import's own arguments. */
  lemma StageFromRun(k: int, run: Run, db: Db, p: Progress)
    requires 1 <= k <= 6 && MemoWf(p.memo) && AllFromRun(p.trace, run)
    ensures AllFromRun(RunStage(k, run, db, p).trace, run)
  {
    var all := AllTickers(run);
    if k == 1 {
      FromRunAppend(p.trace, [DownloadStockMetadata(run.tickers, all), UploadStockMetadata(run.tickers, all)], run);
    } else if k == 2 {
      StockPricesFromRun(run, db, p);
    } else if k == 3 {
      ContractsFromRun(run, db, p);
    } else if k == 4 {
      OptionsPricesFromRun(run, db, p);
    } else if k == 5 {
      SnapshotsFromRun(run, db, p);
    } else {
      QuotesFromRun(run, db, p);
    }
  }

  lemma StockPricesFromRun(run: Run, db: Db, p: Progress)
    requires MemoWf(p.memo) && AllFromRun(p.trace, run)
    ensures AllFromRun(StockPricesStage(run, db, p).trace, run)
  {
    var q0 := Pull(run, db, p);
    var l := q0.memo.tickerLookup;
    var d := DownloadStockPrices(l, run.startDate, run.endDate);
    FromRunPush(p.trace, PullTickers(run.tickers, AllTickers(run)), run);
    FromRunPush(q0.trace, d, run);
    FromRunPush(q0.trace + [d], UploadStockPrices(l), run);
    assert StockPricesStage(run, db, p).trace == q0.trace + [d] + [UploadStockPrices(l)];
  }

  lemma ContractsFromRun(run: Run, db: Db, p: Progress)
    requires MemoWf(p.memo) && AllFromRun(p.trace, run)
    ensures AllFromRun(ContractsStage(run, db, p).trace, run)
  {
    var q0 := if !Truthy(p.memo.tickerLookup) then Pull(run, db, p) else p;
    if !Truthy(p.memo.tickerLookup) {
      FromRunPush(p.trace, PullTickers(run.tickers, AllTickers(run)), run);
    }
    var l := q0.memo.tickerLookup;
    var d := DownloadOptionsContracts(l, run.monthsHist);
    FromRunPush(q0.trace, d, run);
    if Truthy(l) {
      FromRunPush(q0.trace + [d], UploadOptionsContracts(l, run.monthsHist), run);
      assert ContractsStage(run, db, p).trace == q0.trace + [d] + [UploadOptionsContracts(l, run.monthsHist)];
    }
  }

  lemma OptionsPricesFromRun(run: Run, db: Db, p: Progress)
    requires MemoWf(p.memo) && AllFromRun(p.trace, run)
    ensures AllFromRun(OptionsPricesStage(run, db, p).trace, run)
  {
    var q0 := Generate(run, db, p, false);
    var o := q0.memo.oTickers;
    FromRunPush(p.trace, GenerateOTickerLookup(run.tickers, AllTickers(run), false), run);
    FromRunPush(q0.trace, DownloadOptionsPrices(ValueList(o), run.monthsHist), run);
    FromRunPush(q0.trace + [DownloadOptionsPrices(ValueList(o), run.monthsHist)], UploadOptionsPrices(o), run);
    assert OptionsPricesStage(run, db, p).trace
           == q0.trace + [DownloadOptionsPrices(ValueList(o), run.monthsHist)] + [UploadOptionsPrices(o)];
  }



  lemma SnapshotsFromRun(run: Run, db: Db, p: Progress)
    requires MemoWf(p.memo) && AllFromRun(p.trace, run)
    ensures AllFromRun(SnapshotsStage(run, db, p).trace, run)
  {
    var q0 := if !Truthy(p.memo.oTickers) then Generate(run, db, p, true) else p;
    if !Truthy(p.memo.oTickers) {
      FromRunPush(p.trace, GenerateOTickerLookup(run.tickers, AllTickers(run), true), run);
    }
    var o := q0.memo.oTickers;
    var d := DownloadOptionsSnapshots(ValueList(o));
    FromRunPush(q0.trace, d, run);
    FromRunPush(q0.trace + [d], UploadOptionsSnapshots(o), run);
    assert SnapshotsStage(run, db, p).trace == q0.trace + [d] + [UploadOptionsSnapshots(o)];
  }

  lemma QuotesFromRun(run: Run, db: Db, p: Progress)
    requires MemoWf(p.memo) && AllFromRun(p.trace, run)
    ensures AllFromRun(QuotesStage(run, db, p).trace, run)
  {
    var q0 := if !Truthy(p.memo.oTickers) then Generate(run, db, p, false) else p;
    if !Truthy(p.memo.oTickers) {
      FromRunPush(p.trace, GenerateOTickerLookup(run.tickers, AllTickers(run), false), run);
    }
    var o := q0.memo.oTickers;
    var d := DownloadOptionsQuotes(ValueList(o), run.monthsHist);
    FromRunPush(q0.trace, d, run);
    FromRunPush(q0.trace + [d], UploadOptionsQuotes(o), run);
    assert QuotesStage(run, db, p).trace == q0.trace + [d] + [UploadOptionsQuotes(o)];
  }

  lemma FromRunPush(t: seq<Call>, c: Call, run: Run)
    requires AllFromRun(t, run) && FromRun(c, run)
    ensures AllFromRun(t + [c], run)
  {
  }

  /** The shape of a finished trace: an early end leaves the later stages undone. */
  ghost predicate Finished(t: seq<Call>, partial: seq<int>, stopped: bool)
  {
    && StagesSelected(t, partial, 7) && StagesInOrder(t) && UploadsFollow(t, stopped) && QueriesFeed(t)
    && (!stopped ==> Complete(t, partial, 7))
  }

  lemma {:induction false} StagesFromShape(partial: seq<int>, k: int, run: Run, db: Db, p: Progress)
    requires 1 <= k <= 7 && MemoWf(p.memo)
    requires Shape(p.trace, partial, k, p.raised.Some?) && StoppedByContracts(p) && AllFromRun(p.trace, run)
    ensures var r := StagesFrom(partial, k, run, db, p);
            Finished(r.trace, partial, r.raised.Some?) && StoppedByContracts(r) && AllFromRun(r.trace, run)
    decreases 7 - k
  {
    if k < 7 && p.raised.None? {
      var q := StageIf(partial, k, run, db, p);
      if k in partial {
        StageSegment(k, run, db, p);
        assert q.trace == p.trace + q.trace[|p.trace|..];
        SegmentAppend(p.trace, q.trace[|p.trace|..], partial, k, q.raised.Some?);
        StageFromRun(k, run, db, p);
      }
      StagesFromShape(partial, k + 1, run, db, q);
      assert StagesFrom(partial, k, run, db, p) == StagesFrom(partial, k + 1, run, db, q);
    }
  }

  /**
   * import_partial calls only the stages selected, in the order 1..6, at
   * most one download per stage; every download is directly followed by the
   * upload of the same stage, unless it raised and ended the import; every
   * database read directly precedes the download it feeds; and an import
   * that did not raise made the download of every selected stage.
   */
  lemma PartialRunShape(partial: seq<int>, run: Run, db: Db)
    ensures var r := PartialRun(partial, run, db);
            Finished(r.trace, partial, r.raised.Some?)
    ensures AllFromRun(PartialRun(partial, run, db).trace, run)
  {
    StagesFromShape(partial, 1, run, db, Start());
  }

  /**
   * import_partial raises only InvalidArgs, and only when the options-contracts
   * download was given an empty ticker lookup; that download is its last call.
   */
  lemma PartialRunRaises(partial: seq<int>, run: Run, db: Db)
    ensures var r := PartialRun(partial, run, db);
            r.raised.Some? ==>
              && r.raised == Some(InvalidArgs) && 3 in partial && |r.trace| > 0
              && r.trace[|r.trace| - 1].DownloadOptionsContracts? && !Truthy(r.trace[|r.trace| - 1].lookup)
  {
    StagesFromShape(partial, 1, run, db, Start());
    var r := PartialRun(partial, run, db);
    if r.raised.Some? {
      assert r.trace[|r.trace| - 1].Stage() == 3;
    }
  }
}
