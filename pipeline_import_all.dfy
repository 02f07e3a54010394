/**
 * import_all and remove_tickers_from_universe of the data pipeline, and
 * how the InvalidArgs that ends an import is the one the contracts download
 * raises.
 */
module PipelineImportAll {
  import opened Common
  import opened PyDict
  import opened DbUtils
  import opened PipelineOrchestrator
  import Download

  /**
   * What import_all does: metadata for every ticker, the lookup pulled with
   * `all_`, stock prices and contracts with it (the contracts download
   * raising InvalidArgs on an empty lookup), then snapshots of the unexpired
   * contracts, then option prices and quotes of a second read; the quotes
   * are not uploaded.
   */
  function AllRun(run: Run, db: Db): (r: Progress)
    ensures Wf(r.memo.tickerLookup)
    ensures |r.trace| == (if r.raised.Some? then 6 else 14)
    ensures r.trace[5] == DownloadOptionsContracts(r.memo.tickerLookup, run.monthsHist)
  {
    var l := PullTickersFromDb(db.stocks(MetadataCalls()), run.tickers, true);
    if !Truthy(l) then
      RaisedCallsFacts(run, l);
      Progress(StockCalls(run, l) + [DownloadOptionsContracts(l, run.monthsHist)], Memo(l, Empty()), Some(InvalidArgs))
    else
      var o1 := DbUtils.GenerateOTickerLookup(db.options(ContractsCalls(run, l)), run.tickers, true, true);
      var o2 := DbUtils.GenerateOTickerLookup(db.options(SnapshotsCalls(run, l, o1)), run.tickers, true, false);
      AllCallsContracts(run, l, o1, o2);
      Progress(AllCalls(run, l, o1, o2), Memo(l, o2), None)
  }

  function MetadataCalls(): seq<Call>
  {
    [DownloadStockMetadata([], true), UploadStockMetadata([], true)]
  }

  /** The calls up to the stock prices upload, `l` being the lookup pulled. */
  function StockCalls(run: Run, l: TickerLookup): seq<Call>
  {
    MetadataCalls() + [PullTickers(run.tickers, true)]
    + [DownloadStockPrices(l, run.startDate, run.endDate), UploadStockPrices(l)]
  }

  function ContractsCalls(run: Run, l: TickerLookup): seq<Call>
  {
    StockCalls(run, l) + [DownloadOptionsContracts(l, run.monthsHist)] + [UploadOptionsContracts(l, run.monthsHist)]
  }

  /** The calls up to the snapshots upload, `o1` being the lookup of unexpired contracts. */
  function SnapshotsCalls(run: Run, l: TickerLookup, o1: OTickerLookup): seq<Call>
    requires Wf(o1)
  {
    ContractsCalls(run, l) + [GenerateOTickerLookup(run.tickers, true, true)]
    + [DownloadOptionsSnapshots(ValueList(o1)), UploadOptionsSnapshots(o1)]
  }

  /** Every call of an import_all that did not raise, `o2` being the lookup of all contracts. */
  function AllCalls(run: Run, l: TickerLookup, o1: OTickerLookup, o2: OTickerLookup): seq<Call>
    requires Wf(o1) && Wf(o2)
  {
    SnapshotsCalls(run, l, o1) + [GenerateOTickerLookup(run.tickers, true, false)]
    + [DownloadOptionsPrices(ValueList(o2), run.monthsHist), UploadOptionsPrices(o2)]
    + [DownloadOptionsQuotes(ValueList(o2), run.monthsHist)]
  }

  /** import_all, one await after the other. */
  method ImportAll(run: Run, db: Db) returns (trace: seq<Call>, raised: Option<Error>)
    ensures trace == AllRun(run, db).trace && raised == AllRun(run, db).raised
  {
    trace := [DownloadStockMetadata([], true), UploadStockMetadata([], true)];
    var tickerLookup := PullTickersFromDb(db.stocks(trace), run.tickers, true);
    trace := trace + [PullTickers(run.tickers, true)];
    trace := trace + [DownloadStockPrices(tickerLookup, run.startDate, run.endDate), UploadStockPrices(tickerLookup)];
    trace := trace + [DownloadOptionsContracts(tickerLookup, run.monthsHist)];
    if !Truthy(tickerLookup) {
      raised := Some(InvalidArgs);
      return;
    }
    raised := None;
    trace := trace + [UploadOptionsContracts(tickerLookup, run.monthsHist)];
    var oTickers := DbUtils.GenerateOTickerLookup(db.options(trace), run.tickers, true, true);
    ghost var unexpired := oTickers;
    trace := trace + [GenerateOTickerLookup(run.tickers, true, true)];
    trace := trace + [DownloadOptionsSnapshots(ValueList(oTickers)), UploadOptionsSnapshots(oTickers)];
    oTickers := DbUtils.GenerateOTickerLookup(db.options(trace), run.tickers, true, false);
    trace := trace + [GenerateOTickerLookup(run.tickers, true, false)];
    trace := trace + [DownloadOptionsPrices(ValueList(oTickers), run.monthsHist), UploadOptionsPrices(oTickers)];
    trace := trace + [DownloadOptionsQuotes(ValueList(oTickers), run.monthsHist)];
    assert trace == AllCalls(run, tickerLookup, unexpired, oTickers);
  }

  /**
   * import_all, call by call: metadata download and upload, the lookup
   * pulled with `all_` from what the database holds after them, stock
   * prices and contracts with that lookup; it ends with InvalidArgs right
   * after the contracts download exactly when the lookup is empty.
   * Otherwise the contracts are uploaded, the unexpired contracts read back
   * and their snapshots downloaded and uploaded, then all contracts read
   * back and their prices downloaded and uploaded and their quotes
   * downloaded; no quotes are uploaded.
   */
  lemma AllRunShape(run: Run, db: Db)
    ensures var r := AllRun(run, db);
            var l := PullTickersFromDb(db.stocks(MetadataCalls()), run.tickers, true);
            && |r.trace| >= 6 && r.trace[..2] == MetadataCalls()
            && r.memo.tickerLookup == l
            && (r.raised.Some? <==> !Truthy(l))
            && (r.raised.Some? ==>
                  && r.raised == Some(InvalidArgs)
                  && r.trace == [DownloadStockMetadata([], true), UploadStockMetadata([], true),
                                 PullTickers(run.tickers, true),
                                 DownloadStockPrices(l, run.startDate, run.endDate), UploadStockPrices(l),
                                 DownloadOptionsContracts(l, run.monthsHist)])
            && (r.raised.None? ==>
                  |r.trace| == 14 &&
                  var o1 := DbUtils.GenerateOTickerLookup(db.options(r.trace[..7]), run.tickers, true, true);
                  var o2 := DbUtils.GenerateOTickerLookup(db.options(r.trace[..10]), run.tickers, true, false);
                  && r.memo.oTickers == o2
                  && r.trace == AllCallList(run, l, o1, o2))
            && forall i :: 0 <= i < |r.trace| ==> !r.trace[i].UploadOptionsQuotes?
  {
    var l := PullTickersFromDb(db.stocks(MetadataCalls()), run.tickers, true);
    var r := AllRun(run, db);
    if !Truthy(l) {
      assert r.trace == StockCalls(run, l) + [DownloadOptionsContracts(l, run.monthsHist)];
      RaisedCallsFacts(run, l);
    } else {
      var o1 := DbUtils.GenerateOTickerLookup(db.options(ContractsCalls(run, l)), run.tickers, true, true);
      var o2 := DbUtils.GenerateOTickerLookup(db.options(SnapshotsCalls(run, l, o1)), run.tickers, true, false);
      assert r.trace == AllCalls(run, l, o1, o2);
      AllCallsFacts(run, l, o1, o2);
      AllCallsPrefixes(run, l, o1, o2);
    }
  }

  lemma AllCallsContracts(run: Run, l: TickerLookup, o1: OTickerLookup, o2: OTickerLookup)
    requires Wf(o1) && Wf(o2)
    ensures |AllCalls(run, l, o1, o2)| == 14
    ensures AllCalls(run, l, o1, o2)[5] == DownloadOptionsContracts(l, run.monthsHist)
  {
    AllCallsPrefixes(run, l, o1, o2);
    assert ContractsCalls(run, l)[5] == DownloadOptionsContracts(l, run.monthsHist);
  }

  lemma AllCallsPrefixes(run: Run, l: TickerLookup, o1: OTickerLookup, o2: OTickerLookup)
    requires Wf(o1) && Wf(o2)
    ensures AllCalls(run, l, o1, o2)[..7] == ContractsCalls(run, l)
    ensures AllCalls(run, l, o1, o2)[..10] == SnapshotsCalls(run, l, o1)
  {
    var c := ContractsCalls(run, l);
    var s := SnapshotsCalls(run, l, o1);
    var a := AllCalls(run, l, o1, o2);
    assert |c| == 7 && |s| == 10;
    var tail := [GenerateOTickerLookup(run.tickers, true, false)]
      + [DownloadOptionsPrices(ValueList(o2), run.monthsHist), UploadOptionsPrices(o2)]
      + [DownloadOptionsQuotes(ValueList(o2), run.monthsHist)];
    assert a == s + tail;
    assert a[..10] == s;
    var mid := [GenerateOTickerLookup(run.tickers, true, true)]
      + [DownloadOptionsSnapshots(ValueList(o1)), UploadOptionsSnapshots(o1)];
    assert s == c + mid;
    assert a[..7] == s[..7] == c;
  }

  /** The fourteen calls of an import_all that did not raise, one by one. */
  function AllCallList(run: Run, l: TickerLookup, o1: OTickerLookup, o2: OTickerLookup): seq<Call>
    requires Wf(o1) && Wf(o2)
  {
    [DownloadStockMetadata([], true), UploadStockMetadata([], true), PullTickers(run.tickers, true),
     DownloadStockPrices(l, run.startDate, run.endDate), UploadStockPrices(l),
     DownloadOptionsContracts(l, run.monthsHist), UploadOptionsContracts(l, run.monthsHist),
     GenerateOTickerLookup(run.tickers, true, true),
     DownloadOptionsSnapshots(ValueList(o1)), UploadOptionsSnapshots(o1),
     GenerateOTickerLookup(run.tickers, true, false),
     DownloadOptionsPrices(ValueList(o2), run.monthsHist), UploadOptionsPrices(o2),
     DownloadOptionsQuotes(ValueList(o2), run.monthsHist)]
  }

  /** The six calls of an import_all whose contracts download raised, and no quotes upload among them. */
  lemma RaisedCallsFacts(run: Run, l: TickerLookup)
    ensures var t := StockCalls(run, l) + [DownloadOptionsContracts(l, run.monthsHist)];
            && t == [DownloadStockMetadata([], true), UploadStockMetadata([], true), PullTickers(run.tickers, true),
                     DownloadStockPrices(l, run.startDate, run.endDate), UploadStockPrices(l),
                     DownloadOptionsContracts(l, run.monthsHist)]
            && forall i :: 0 <= i < |t| ==> !t[i].UploadOptionsQuotes?
  {
    assert StockCalls(run, l) + [DownloadOptionsContracts(l, run.monthsHist)]
           == [DownloadStockMetadata([], true), UploadStockMetadata([], true), PullTickers(run.tickers, true),
               DownloadStockPrices(l, run.startDate, run.endDate), UploadStockPrices(l),
               DownloadOptionsContracts(l, run.monthsHist)];
  }

  /** The fourteen calls of a complete import_all, one by one, and no quotes upload among them. */
  lemma AllCallsFacts(run: Run, l: TickerLookup, o1: OTickerLookup, o2: OTickerLookup)
    requires Wf(o1) && Wf(o2)
    ensures var t := AllCalls(run, l, o1, o2);
            && t == AllCallList(run, l, o1, o2)
            && forall i :: 0 <= i < |t| ==> !t[i].UploadOptionsQuotes?
  {
    assert AllCalls(run, l, o1, o2) == AllCallList(run, l, o1, o2);
  }

  /**
   * With no tickers given and a non-empty lookup, import_all starts with
   * exactly the calls of import_partial over stages 1 to 3.
   */
  lemma AllRunStartsAsPartial(run: Run, db: Db)
    requires run.tickers == [] && AllRun(run, db).raised.None?
    ensures PartialRun([1, 2, 3], run, db).raised.None?
    ensures PartialRun([1, 2, 3], run, db).trace == AllRun(run, db).trace[..7]
  {
    var partial := [1, 2, 3];
    var l := PullTickersFromDb(db.stocks(MetadataCalls()), run.tickers, true);
    assert Truthy(l);
    var p1 := StageIf(partial, 1, run, db, Start());
    var p2 := StageIf(partial, 2, run, db, p1);
    PartialStockStages(run, db);
    var p3 := StageIf(partial, 3, run, db, p2);
    PartialContractsStage(run, db, p2, l);
    AllRunPrefix(run, db, l);
    PartialRunFirstThree(run, db, p1, p2, p3);
  }

  /** Stages 4 to 6 are not selected by `[1, 2, 3]`, so such a run ends with stage 3. */
  lemma PartialRunFirstThree(run: Run, db: Db, p1: Progress, p2: Progress, p3: Progress)
    requires p1 == StageIf([1, 2, 3], 1, run, db, Start()) && p1.raised.None?
    requires p2 == StageIf([1, 2, 3], 2, run, db, p1) && p2.raised.None?
    requires p3 == StageIf([1, 2, 3], 3, run, db, p2) && p3.raised.None?
    ensures PartialRun([1, 2, 3], run, db) == p3
  {
    var partial := [1, 2, 3];
    assert 4 !in partial && 5 !in partial && 6 !in partial;
    PartialRunUnrolled(partial, run, db, p1, p2, p3, p3, p3, p3);
  }

  /** With no tickers, stages 1 and 2 of import_partial make the first five calls of import_all. */
  lemma PartialStockStages(run: Run, db: Db)
    requires run.tickers == []
    ensures var p2 := StageIf([1, 2, 3], 2, run, db, StageIf([1, 2, 3], 1, run, db, Start()));
            var l := PullTickersFromDb(db.stocks(MetadataCalls()), run.tickers, true);
            p2.memo.tickerLookup == l && p2.trace == StockCalls(run, l) && p2.raised.None?
  {
    var p1 := StageIf([1, 2, 3], 1, run, db, Start());
    assert p1.trace == MetadataCalls();
  }

  /** Stage 3 of import_partial, given the truthy lookup of stage 2, adds the contracts download and upload. */
  lemma PartialContractsStage(run: Run, db: Db, p2: Progress, l: TickerLookup)
    requires MemoWf(p2.memo) && p2.memo.tickerLookup == l && Truthy(l)
    requires p2.trace == StockCalls(run, l) && p2.raised.None?
    ensures var p3 := StageIf([1, 2, 3], 3, run, db, p2);
            p3.trace == ContractsCalls(run, l) && p3.raised.None?
  {
  }

  lemma AllRunPrefix(run: Run, db: Db, l: TickerLookup)
    requires l == PullTickersFromDb(db.stocks(MetadataCalls()), run.tickers, true) && Truthy(l)
    ensures AllRun(run, db).trace[..7] == ContractsCalls(run, l)
  {
    var o1 := DbUtils.GenerateOTickerLookup(db.options(ContractsCalls(run, l)), run.tickers, true, true);
    var o2 := DbUtils.GenerateOTickerLookup(db.options(SnapshotsCalls(run, l, o1)), run.tickers, true, false);
    AllCallsPrefixes(run, l, o1, o2);
    assert AllRun(run, db).trace == AllCalls(run, l, o1, o2);
  }

  /**
   * The exception of stage 3 is the one download_options_contracts raises
   * when it is given no tickers and the lookup held.
   */
  lemma ContractsStageRaisesAsDownload(run: Run, db: Db, p: Progress, idQuery: Download.TickerIdQuery)
    requires MemoWf(p.memo) && p.raised.None?
    ensures var q0 := if !Truthy(p.memo.tickerLookup) then Pull(run, db, p) else p;
            var r := Download.DownloadOptionsContracts([], q0.memo.tickerLookup, run.monthsHist, idQuery);
            && (ContractsStage(run, db, p).raised.Some? <==> r.Err?)
            && (r.Err? ==> ContractsStage(run, db, p).raised == Some(r.error))
  {
    var q0 := if !Truthy(p.memo.tickerLookup) then Pull(run, db, p) else p;
    assert ContractsStage(run, db, p).raised.Some? <==> !Truthy(q0.memo.tickerLookup);
  }

  /** The same for import_all. */
  lemma AllRunRaisesAsDownload(run: Run, db: Db, idQuery: Download.TickerIdQuery)
    ensures var r := AllRun(run, db);
            var d := Download.DownloadOptionsContracts([], r.memo.tickerLookup, run.monthsHist, idQuery);
            (r.raised.Some? <==> d.Err?) && (d.Err? ==> r.raised == Some(d.error))
  {
    AllRunShape(run, db);
  }

  /** remove_tickers_from_universe: one delete per ticker, in the order given. */
  method RemoveTickersFromUniverse(tickers: seq<string>) returns (trace: seq<Call>)
    ensures |trace| == |tickers|
    ensures forall i :: 0 <= i < |tickers| ==> trace[i] == DeleteStockTicker(tickers[i])
  {
    trace := [];
    for i := 0 to |tickers|
      invariant |trace| == i
      invariant forall j :: 0 <= j < i ==> trace[j] == DeleteStockTicker(tickers[j])
    {
      trace := trace + [DeleteStockTicker(tickers[i])];
    }
  }
}
