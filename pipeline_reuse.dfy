/**
 * What import_partial reuses between stages: the ticker lookup held after
 * the stock prices, and the o_ticker lookup held after the option prices
 * or the snapshots. The facts are first stated about call traces, where a
 * call is added one at a time, and then carried through the stages.
 */
module PipelineReuse {
  import opened Common
  import opened PyDict
  import opened DbUtils
  import opened PipelineOrchestrator

  // ---------------------------------------------------------------------
  // The ticker lookup

  ghost predicate NoStockPrices(t: seq<Call>)
  {
    forall i :: 0 <= i < |t| ==> !t[i].DownloadStockPrices?
  }

  ghost predicate NoContracts(t: seq<Call>)
  {
    forall i :: 0 <= i < |t| ==> !t[i].DownloadOptionsContracts?
  }

  /** Every stock prices download was given `l`; unless `strict`, only those given a non-empty lookup. */
  ghost predicate HeldLookup(t: seq<Call>, l: TickerLookup, strict: bool)
  {
    forall i :: (0 <= i < |t| && t[i].DownloadStockPrices? && (strict || Truthy(t[i].lookup))) ==> t[i].lookup == l
  }

  /** The contracts download is given the lookup of the stock prices download whenever that one was non-empty. */
  ghost predicate ContractsReuseLookup(t: seq<Call>)
  {
    forall i, j :: (0 <= i < |t| && 0 <= j < |t| && t[i].DownloadStockPrices? && t[j].DownloadOptionsContracts?
                    && Truthy(t[i].lookup)) ==> t[j].lookup == t[i].lookup
  }

  /** The lookup is pulled again after the stock prices download only when that download was given an empty one. */
  ghost predicate PulledAgainOnlyIfEmpty(t: seq<Call>)
  {
    forall x, j :: (0 <= x < j < |t| && t[x].DownloadStockPrices? && t[j].PullTickers?) ==> !Truthy(t[x].lookup)
  }

  /** What holds of the calls made before stage k, `l` being the ticker lookup held. */
  ghost predicate StockInv(t: seq<Call>, l: TickerLookup, k: int)
  {
    && (k <= 2 ==> NoStockPrices(t) && NoContracts(t))
    && HeldLookup(t, l, k <= 3)
    && ContractsReuseLookup(t)
    && PulledAgainOnlyIfEmpty(t)
  }

  lemma NoStockPricesPush(t: seq<Call>, c: Call)
    requires NoStockPrices(t) && !c.DownloadStockPrices?
    ensures NoStockPrices(t + [c])
  {
    var u := t + [c];
    forall i | 0 <= i < |u| ensures !u[i].DownloadStockPrices? {
      if i < |t| { assert u[i] == t[i]; }
    }
  }

  lemma NoContractsPush(t: seq<Call>, c: Call)
    requires NoContracts(t) && !c.DownloadOptionsContracts?
    ensures NoContracts(t + [c])
  {
    var u := t + [c];
    forall i | 0 <= i < |u| ensures !u[i].DownloadOptionsContracts? {
      if i < |t| { assert u[i] == t[i]; }
    }
  }

  lemma HeldLookupPush(t: seq<Call>, c: Call, l: TickerLookup, strict: bool)
    requires HeldLookup(t, l, strict) && (c.DownloadStockPrices? ==> c.lookup == l)
    ensures HeldLookup(t + [c], l, strict)
  {
    var u := t + [c];
    forall i | 0 <= i < |u| && u[i].DownloadStockPrices? && (strict || Truthy(u[i].lookup))
      ensures u[i].lookup == l
    {
      if i < |t| { assert u[i] == t[i]; }
    }
  }

  /** Before any stock prices download, any lookup is the held one. */
  lemma HeldLookupFresh(t: seq<Call>, l: TickerLookup)
    requires NoStockPrices(t)
    ensures HeldLookup(t, l, true)
  {
  }

  /** A held empty lookup leaves no non-empty one behind, so a fresh pull is held from then on. */
  lemma HeldLookupRefresh(t: seq<Call>, l: TickerLookup, l': TickerLookup)
    requires HeldLookup(t, l, true) && !Truthy(l)
    ensures HeldLookup(t, l', false)
  {
  }

  lemma ContractsReuseLookupPush(t: seq<Call>, c: Call)
    requires ContractsReuseLookup(t)
    requires c.DownloadStockPrices? && Truthy(c.lookup) ==> NoContracts(t)
    requires c.DownloadOptionsContracts? ==> HeldLookup(t, c.lookup, false)
    ensures ContractsReuseLookup(t + [c])
  {
    var u := t + [c];
    forall i, j | 0 <= i < |u| && 0 <= j < |u| && u[i].DownloadStockPrices? && u[j].DownloadOptionsContracts?
                  && Truthy(u[i].lookup)
      ensures u[j].lookup == u[i].lookup
    {
      if i < |t| && j < |t| {
        assert u[i] == t[i] && u[j] == t[j];
      } else if i < |t| {
        assert u[i] == t[i];
      }
    }
  }

  lemma PulledAgainPush(t: seq<Call>, c: Call)
    requires PulledAgainOnlyIfEmpty(t)
    requires c.PullTickers? ==> forall x :: 0 <= x < |t| && t[x].DownloadStockPrices? ==> !Truthy(t[x].lookup)
    ensures PulledAgainOnlyIfEmpty(t + [c])
  {
    var u := t + [c];
    forall x, j | 0 <= x < j < |u| && u[x].DownloadStockPrices? && u[j].PullTickers?
      ensures !Truthy(u[x].lookup)
    {
      assert u[x] == t[x];
      if j < |t| { assert u[j] == t[j]; }
    }
  }

  /** A call that neither pulls, nor downloads stock prices or contracts, keeps the stock facts. */
  lemma StockQuiet(t: seq<Call>, c: Call, l: TickerLookup, k: int)
    requires StockInv(t, l, k)
    requires !c.PullTickers? && !c.DownloadStockPrices? && !c.DownloadOptionsContracts?
    ensures StockInv(t + [c], l, k)
  {
    if k <= 2 {
      NoStockPricesPush(t, c);
      NoContractsPush(t, c);
    }
    HeldLookupPush(t, c, l, k <= 3);
    ContractsReuseLookupPush(t, c);
    PulledAgainPush(t, c);
  }

  // ---------------------------------------------------------------------
  // The o_ticker lookup

  ghost predicate NoOptionPrices(t: seq<Call>)
  {
    forall i :: 0 <= i < |t| ==> !t[i].DownloadOptionsPrices?
  }

  ghost predicate NoUnexpiredRead(t: seq<Call>)
  {
    forall i :: 0 <= i < |t| ==> !(t[i].GenerateOTickerLookup? && t[i].unexpired)
  }

  ghost predicate NoSnapshots(t: seq<Call>)
  {
    forall i :: 0 <= i < |t| ==> !t[i].DownloadOptionsSnapshots?
  }

  ghost predicate NoQuotes(t: seq<Call>)
  {
    forall i :: 0 <= i < |t| ==> !t[i].DownloadOptionsQuotes?
  }

  /**
   * Every option prices or snapshots download given a non-empty list was
   * given `vs`; when `strict`, every option prices download was.
   */
  ghost predicate HeldOTickers(t: seq<Call>, vs: seq<OptionTicker>, strict: bool)
  {
    forall i :: (0 <= i < |t| && (t[i].DownloadOptionsPrices? || t[i].DownloadOptionsSnapshots?)
                 && ((strict && t[i].DownloadOptionsPrices?) || t[i].oTickers != [])) ==> t[i].oTickers == vs
  }

  /** The snapshots are taken of the option prices' o_tickers whenever those were non-empty. */
  ghost predicate SnapshotsReuse(t: seq<Call>)
  {
    forall i, j :: (0 <= i < |t| && 0 <= j < |t| && t[i].DownloadOptionsPrices? && t[j].DownloadOptionsSnapshots?
                    && t[i].oTickers != []) ==> t[j].oTickers == t[i].oTickers
  }

  /** The quotes are fetched for the option prices' or snapshots' o_tickers whenever those were non-empty. */
  ghost predicate QuotesReuse(t: seq<Call>)
  {
    forall i, j :: (0 <= i < |t| && 0 <= j < |t| && (t[i].DownloadOptionsPrices? || t[i].DownloadOptionsSnapshots?)
                    && t[j].DownloadOptionsQuotes? && t[i].oTickers != []) ==> t[j].oTickers == t[i].oTickers
  }

  /** The unexpired contracts are read only in an import whose option prices, if fetched, had no o_tickers. */
  ghost predicate UnexpiredOnlyIfNone(t: seq<Call>)
  {
    forall i, j :: (0 <= i < |t| && 0 <= j < |t| && t[i].GenerateOTickerLookup? && t[i].unexpired
                    && t[j].DownloadOptionsPrices?) ==> t[j].oTickers == []
  }

  /** What holds of the calls made before stage k, `vs` being the values of the o_ticker lookup held. */
  ghost predicate OptionInv(t: seq<Call>, vs: seq<OptionTicker>, k: int)
  {
    && (k <= 4 ==> NoOptionPrices(t) && NoUnexpiredRead(t))
    && (k <= 5 ==> NoSnapshots(t) && NoQuotes(t))
    && HeldOTickers(t, vs, k <= 5)
    && SnapshotsReuse(t)
    && QuotesReuse(t)
    && UnexpiredOnlyIfNone(t)
  }

  lemma NoOptionCallsPush(t: seq<Call>, c: Call)
    ensures NoOptionPrices(t) && !c.DownloadOptionsPrices? ==> NoOptionPrices(t + [c])
    ensures NoUnexpiredRead(t) && !(c.GenerateOTickerLookup? && c.unexpired) ==> NoUnexpiredRead(t + [c])
    ensures NoSnapshots(t) && !c.DownloadOptionsSnapshots? ==> NoSnapshots(t + [c])
    ensures NoQuotes(t) && !c.DownloadOptionsQuotes? ==> NoQuotes(t + [c])
  {
    var u := t + [c];
    assert forall i :: 0 <= i < |t| ==> u[i] == t[i];
  }

  lemma HeldOTickersPush(t: seq<Call>, c: Call, vs: seq<OptionTicker>, strict: bool)
    requires HeldOTickers(t, vs, strict)
    requires c.DownloadOptionsPrices? || c.DownloadOptionsSnapshots? ==> c.oTickers == vs
    ensures HeldOTickers(t + [c], vs, strict)
  {
    var u := t + [c];
    forall i | 0 <= i < |u| && (u[i].DownloadOptionsPrices? || u[i].DownloadOptionsSnapshots?)
               && ((strict && u[i].DownloadOptionsPrices?) || u[i].oTickers != [])
      ensures u[i].oTickers == vs
    {
      if i < |t| { assert u[i] == t[i]; }
    }
  }

  /** Before any option prices or snapshots download, any list is the held one. */
  lemma HeldOTickersFresh(t: seq<Call>, vs: seq<OptionTicker>)
    requires NoOptionPrices(t) && NoSnapshots(t)
    ensures HeldOTickers(t, vs, true)
  {
  }

  /** A held empty list leaves no non-empty one behind, so a freshly generated lookup is held from then on. */
  lemma HeldOTickersRefresh(t: seq<Call>, vs: seq<OptionTicker>)
    requires HeldOTickers(t, [], false)
    ensures HeldOTickers(t, vs, false)
  {
  }

  lemma SnapshotsReusePush(t: seq<Call>, c: Call)
    requires SnapshotsReuse(t)
    requires c.DownloadOptionsSnapshots? ==> HeldOTickers(t, c.oTickers, false)
    requires c.DownloadOptionsPrices? ==> NoSnapshots(t)
    ensures SnapshotsReuse(t + [c])
  {
    var u := t + [c];
    forall i, j | 0 <= i < |u| && 0 <= j < |u| && u[i].DownloadOptionsPrices? && u[j].DownloadOptionsSnapshots?
                  && u[i].oTickers != []
      ensures u[j].oTickers == u[i].oTickers
    {
      if i < |t| && j < |t| {
        assert u[i] == t[i] && u[j] == t[j];
      } else if i < |t| {
        assert u[i] == t[i];
      }
    }
  }

  lemma QuotesReusePush(t: seq<Call>, c: Call)
    requires QuotesReuse(t)
    requires c.DownloadOptionsQuotes? ==> HeldOTickers(t, c.oTickers, false)
    requires c.DownloadOptionsPrices? || c.DownloadOptionsSnapshots? ==> NoQuotes(t)
    ensures QuotesReuse(t + [c])
  {
    var u := t + [c];
    forall i, j | 0 <= i < |u| && 0 <= j < |u| && (u[i].DownloadOptionsPrices? || u[i].DownloadOptionsSnapshots?)
                  && u[j].DownloadOptionsQuotes? && u[i].oTickers != []
      ensures u[j].oTickers == u[i].oTickers
    {
      if i < |t| && j < |t| {
        assert u[i] == t[i] && u[j] == t[j];
      } else if i < |t| {
        assert u[i] == t[i];
      }
    }
  }

  lemma UnexpiredPush(t: seq<Call>, c: Call)
    requires UnexpiredOnlyIfNone(t)
    requires c.GenerateOTickerLookup? && c.unexpired ==> HeldOTickers(t, [], true)
    requires c.DownloadOptionsPrices? ==> NoUnexpiredRead(t)
    ensures UnexpiredOnlyIfNone(t + [c])
  {
    var u := t + [c];
    forall i, j | 0 <= i < |u| && 0 <= j < |u| && u[i].GenerateOTickerLookup? && u[i].unexpired
                  && u[j].DownloadOptionsPrices?
      ensures u[j].oTickers == []
    {
      if i < |t| && j < |t| {
        assert u[i] == t[i] && u[j] == t[j];
      } else if j < |t| {
        assert u[j] == t[j];
      }
    }
  }

  /** A call that neither reads the unexpired contracts nor downloads option data keeps the option facts. */
  lemma OptionQuiet(t: seq<Call>, c: Call, vs: seq<OptionTicker>, k: int)
    requires OptionInv(t, vs, k)
    requires !(c.GenerateOTickerLookup? && c.unexpired)
    requires !c.DownloadOptionsPrices? && !c.DownloadOptionsSnapshots? && !c.DownloadOptionsQuotes?
    ensures OptionInv(t + [c], vs, k)
  {
    NoOptionCallsPush(t, c);
    HeldOTickersPush(t, c, vs, k <= 5);
    SnapshotsReusePush(t, c);
    QuotesReusePush(t, c);
    UnexpiredPush(t, c);
  }

  // ---------------------------------------------------------------------
  // Through the stages

  /** The facts about the calls before stage k, with the locals held at that point. */
  ghost predicate Inv(p: Progress, k: int)
  {
    && MemoWf(p.memo)
    && StockInv(p.trace, p.memo.tickerLookup, k)
    && OptionInv(p.trace, ValueList(p.memo.oTickers), k)
  }

  /** A stage that makes none of their calls keeps the facts. */
  lemma StockBump(t: seq<Call>, l: TickerLookup, k: int)
    requires StockInv(t, l, k)
    ensures StockInv(t, l, k + 1)
  {
  }

  lemma OptionBump(t: seq<Call>, vs: seq<OptionTicker>, k: int)
    requires OptionInv(t, vs, k)
    ensures OptionInv(t, vs, k + 1)
  {
  }

  lemma MetadataReuse(run: Run, p: Progress)
    requires Inv(p, 1)
    ensures Inv(MetadataStage(run, p), 2)
  {
    var l, vs := p.memo.tickerLookup, ValueList(p.memo.oTickers);
    var a := DownloadStockMetadata(run.tickers, AllTickers(run));
    var b := UploadStockMetadata(run.tickers, AllTickers(run));
    StockQuiet(p.trace, a, l, 1);
    StockQuiet(p.trace + [a], b, l, 1);
    OptionQuiet(p.trace, a, vs, 1);
    OptionQuiet(p.trace + [a], b, vs, 1);
    StockBump(p.trace + [a] + [b], l, 1);
    OptionBump(p.trace + [a] + [b], vs, 1);
    assert MetadataStage(run, p).trace == p.trace + [a] + [b];
  }

  /** Stage 2 pulls the lookup and hands it to the stock prices download. */
  lemma StockPricesCalls(t: seq<Call>, l: TickerLookup, c1: Call, c2: Call, c3: Call)
    requires StockInv(t, l, 2)
    requires c1.PullTickers? && c2.DownloadStockPrices? && c3.UploadStockPrices?
    ensures StockInv(t + [c1] + [c2] + [c3], c2.lookup, 3)
  {
    var l' := c2.lookup;
    var t1 := t + [c1];
    var t2 := t1 + [c2];
    HeldLookupFresh(t, l');
    NoStockPricesPush(t, c1);
    NoContractsPush(t, c1);
    HeldLookupPush(t, c1, l', true);
    ContractsReuseLookupPush(t, c1);
    PulledAgainPush(t, c1);
    HeldLookupPush(t1, c2, l', true);
    ContractsReuseLookupPush(t1, c2);
    PulledAgainPush(t1, c2);
    StockQuiet(t2, c3, l', 3);
  }

  lemma StockPricesReuse(run: Run, db: Db, p: Progress)
    requires Inv(p, 2)
    ensures Inv(StockPricesStage(run, db, p), 3)
  {
    var vs := ValueList(p.memo.oTickers);
    var q0 := Pull(run, db, p);
    var l' := q0.memo.tickerLookup;
    var c1 := PullTickers(run.tickers, AllTickers(run));
    var c2 := DownloadStockPrices(l', run.startDate, run.endDate);
    var c3 := UploadStockPrices(l');
    StockPricesCalls(p.trace, p.memo.tickerLookup, c1, c2, c3);
    OptionQuiet(p.trace, c1, vs, 2);
    OptionQuiet(p.trace + [c1], c2, vs, 2);
    OptionQuiet(p.trace + [c1] + [c2], c3, vs, 2);
    OptionBump(p.trace + [c1] + [c2] + [c3], vs, 2);
    assert StockPricesStage(run, db, p).trace == p.trace + [c1] + [c2] + [c3];
  }

  /** The contracts download given the held lookup keeps the stock facts. */
  lemma ContractsPush(t: seq<Call>, l: TickerLookup, d: Call)
    requires StockInv(t, l, 4) && d.DownloadOptionsContracts? && d.lookup == l
    ensures StockInv(t + [d], l, 4)
  {
    HeldLookupPush(t, d, l, false);
    ContractsReuseLookupPush(t, d);
    PulledAgainPush(t, d);
  }

  /** The second pull of stage 3, made only while an empty lookup is held. */
  lemma SecondPull(t: seq<Call>, l: TickerLookup, l': TickerLookup, c: Call)
    requires StockInv(t, l, 3) && !Truthy(l) && c.PullTickers?
    ensures StockInv(t + [c], l', 4)
  {
    HeldLookupRefresh(t, l, l');
    HeldLookupPush(t, c, l', false);
    ContractsReuseLookupPush(t, c);
    PulledAgainPush(t, c);
  }

  lemma ContractsReuse(run: Run, db: Db, p: Progress)
    requires Inv(p, 3)
    ensures Inv(ContractsStage(run, db, p), 4)
  {
    var vs := ValueList(p.memo.oTickers);
    var l := p.memo.tickerLookup;
    var q0 := if !Truthy(l) then Pull(run, db, p) else p;
    var l' := q0.memo.tickerLookup;
    var c1 := PullTickers(run.tickers, AllTickers(run));
    if !Truthy(l) {
      SecondPull(p.trace, l, l', c1);
      OptionQuiet(p.trace, c1, vs, 3);
    } else {
      StockBump(p.trace, l, 3);
    }
    assert StockInv(q0.trace, l', 4) && OptionInv(q0.trace, vs, 3);
    var d := DownloadOptionsContracts(l', run.monthsHist);
    var u := UploadOptionsContracts(l', run.monthsHist);
    ContractsPush(q0.trace, l', d);
    OptionQuiet(q0.trace, d, vs, 3);
    if Truthy(l') {
      StockQuiet(q0.trace + [d], u, l', 4);
      OptionQuiet(q0.trace + [d], u, vs, 3);
      OptionBump(q0.trace + [d] + [u], vs, 3);
      assert ContractsStage(run, db, p).trace == q0.trace + [d] + [u];
    } else {
      OptionBump(q0.trace + [d], vs, 3);
    }
  }

  /** Stage 4 reads the o_tickers afresh and hands their list to the option prices download. */
  lemma OptionsPricesCalls(t: seq<Call>, vs: seq<OptionTicker>, c1: Call, c2: Call, c3: Call)
    requires OptionInv(t, vs, 4)
    requires c1.GenerateOTickerLookup? && !c1.unexpired
    requires c2.DownloadOptionsPrices? && c3.UploadOptionsPrices?
    ensures OptionInv(t + [c1] + [c2] + [c3], c2.oTickers, 5)
  {
    var vs' := c2.oTickers;
    var t1 := t + [c1];
    OptionQuiet(t, c1, vs, 4);
    HeldOTickersFresh(t1, vs');
    NoOptionCallsPush(t1, c2);
    HeldOTickersPush(t1, c2, vs', true);
    SnapshotsReusePush(t1, c2);
    QuotesReusePush(t1, c2);
    UnexpiredPush(t1, c2);
    OptionQuiet(t1 + [c2], c3, vs', 5);
  }

  lemma OptionsPricesReuse(run: Run, db: Db, p: Progress)
    requires Inv(p, 4)
    ensures Inv(OptionsPricesStage(run, db, p), 5)
  {
    var l := p.memo.tickerLookup;
    var q0 := Generate(run, db, p, false);
    var o := q0.memo.oTickers;
    var c1 := GenerateOTickerLookup(run.tickers, AllTickers(run), false);
    var c2 := DownloadOptionsPrices(ValueList(o), run.monthsHist);
    var c3 := UploadOptionsPrices(o);
    OptionsPricesCalls(p.trace, ValueList(p.memo.oTickers), c1, c2, c3);
    StockQuiet(p.trace, c1, l, 4);
    StockQuiet(p.trace + [c1], c2, l, 4);
    StockQuiet(p.trace + [c1] + [c2], c3, l, 4);
    StockBump(p.trace + [c1] + [c2] + [c3], l, 4);
    assert OptionsPricesStage(run, db, p).trace == p.trace + [c1] + [c2] + [c3];
  }

  /** The read of the unexpired contracts of stage 5, made only while no o_tickers are held. */
  lemma UnexpiredRead(t: seq<Call>, vs': seq<OptionTicker>, c: Call)
    requires OptionInv(t, [], 5) && c.GenerateOTickerLookup? && c.unexpired
    ensures OptionInv(t + [c], vs', 6) && NoQuotes(t + [c])
  {
    NoOptionCallsPush(t, c);
    HeldOTickersPush(t, c, [], true);
    SnapshotsReusePush(t, c);
    QuotesReusePush(t, c);
    UnexpiredPush(t, c);
    HeldOTickersRefresh(t + [c], vs');
  }

  /** The snapshots download given the held list. */
  lemma SnapshotsPush(t: seq<Call>, vs: seq<OptionTicker>, d: Call)
    requires OptionInv(t, vs, 6) && NoQuotes(t) && d == DownloadOptionsSnapshots(vs)
    ensures OptionInv(t + [d], vs, 6)
  {
    HeldOTickersPush(t, d, vs, false);
    SnapshotsReusePush(t, d);
    QuotesReusePush(t, d);
    UnexpiredPush(t, d);
  }

  lemma SnapshotsReuseStage(run: Run, db: Db, p: Progress)
    requires Inv(p, 5)
    ensures Inv(SnapshotsStage(run, db, p), 6)
  {
    var l := p.memo.tickerLookup;
    var vs := ValueList(p.memo.oTickers);
    var q0 := if !Truthy(p.memo.oTickers) then Generate(run, db, p, true) else p;
    var o := q0.memo.oTickers;
    var vs' := ValueList(o);
    var c1 := GenerateOTickerLookup(run.tickers, AllTickers(run), true);
    if !Truthy(p.memo.oTickers) {
      assert vs == [];
      UnexpiredRead(p.trace, vs', c1);
      StockQuiet(p.trace, c1, l, 5);
    } else {
      OptionBump(p.trace, vs, 5);
    }
    var d := DownloadOptionsSnapshots(vs');
    var u := UploadOptionsSnapshots(o);
    SnapshotsPush(q0.trace, vs', d);
    StockQuiet(q0.trace, d, l, 5);
    OptionQuiet(q0.trace + [d], u, vs', 6);
    StockQuiet(q0.trace + [d], u, l, 5);
    StockBump(q0.trace + [d] + [u], l, 5);
    assert SnapshotsStage(run, db, p).trace == q0.trace + [d] + [u];
  }

  /** The quotes download given the held list. */
  lemma QuotesPush(t: seq<Call>, vs: seq<OptionTicker>, d: Call)
    requires OptionInv(t, vs, 6) && d.DownloadOptionsQuotes? && d.oTickers == vs
    ensures OptionInv(t + [d], vs, 6)
  {
    HeldOTickersPush(t, d, vs, false);
    SnapshotsReusePush(t, d);
    QuotesReusePush(t, d);
    UnexpiredPush(t, d);
  }

  lemma QuotesReuseStage(run: Run, db: Db, p: Progress)
    requires Inv(p, 6)
    ensures Inv(QuotesStage(run, db, p), 7)
  {
    var l := p.memo.tickerLookup;
    var vs := ValueList(p.memo.oTickers);
    var q0 := if !Truthy(p.memo.oTickers) then Generate(run, db, p, false) else p;
    var o := q0.memo.oTickers;
    var vs' := ValueList(o);
    var c1 := GenerateOTickerLookup(run.tickers, AllTickers(run), false);
    if !Truthy(p.memo.oTickers) {
      assert vs == [];
      OptionQuiet(p.trace, c1, [], 6);
      HeldOTickersRefresh(p.trace + [c1], vs');
      StockQuiet(p.trace, c1, l, 6);
    }
    var d := DownloadOptionsQuotes(vs', run.monthsHist);
    var u := UploadOptionsQuotes(o);
    QuotesPush(q0.trace, vs', d);
    StockQuiet(q0.trace, d, l, 6);
    OptionQuiet(q0.trace + [d], u, vs', 6);
    StockQuiet(q0.trace + [d], u, l, 6);
    StockBump(q0.trace + [d] + [u], l, 6);
    OptionBump(q0.trace + [d] + [u], vs', 6);
    assert QuotesStage(run, db, p).trace == q0.trace + [d] + [u];
  }

  lemma StageReuse(k: int, run: Run, db: Db, p: Progress)
    requires 1 <= k <= 6 && Inv(p, k)
    ensures Inv(RunStage(k, run, db, p), k + 1)
  {
    if k == 1 { MetadataReuse(run, p); }
    else if k == 2 { StockPricesReuse(run, db, p); }
    else if k == 3 { ContractsReuse(run, db, p); }
    else if k == 4 { OptionsPricesReuse(run, db, p); }
    else if k == 5 { SnapshotsReuseStage(run, db, p); }
    else { QuotesReuseStage(run, db, p); }
  }

  /** What every import_partial reuses, stated about its calls. */
  ghost predicate Reuses(t: seq<Call>)
  {
    && ContractsReuseLookup(t)
    && PulledAgainOnlyIfEmpty(t)
    && SnapshotsReuse(t)
    && QuotesReuse(t)
    && UnexpiredOnlyIfNone(t)
  }

  lemma {:induction false} StagesFromReuse(partial: seq<int>, k: int, run: Run, db: Db, p: Progress)
    requires 1 <= k <= 7 && Inv(p, k)
    ensures Reuses(StagesFrom(partial, k, run, db, p).trace)
    decreases 7 - k
  {
    if k < 7 && p.raised.None? {
      var q := StageIf(partial, k, run, db, p);
      if k in partial {
        StageReuse(k, run, db, p);
      } else {
        StockBump(p.trace, p.memo.tickerLookup, k);
        OptionBump(p.trace, ValueList(p.memo.oTickers), k);
      }
      assert Inv(q, k + 1);
      StagesFromReuse(partial, k + 1, run, db, q);
      assert StagesFrom(partial, k, run, db, p) == StagesFrom(partial, k + 1, run, db, q);
    }
  }

  /**
   * In every import_partial: the contracts are downloaded with the stock
   * prices' lookup when that was non-empty, and the lookup is pulled again
   * only when it was empty; the snapshots and the quotes reuse the
   * o_tickers of the option prices or the snapshots when those were
   * non-empty; and the unexpired contracts are read only when the option
   * prices, if fetched, had no o_tickers.
   */
  lemma PartialRunReuses(partial: seq<int>, run: Run, db: Db)
    ensures Reuses(PartialRun(partial, run, db).trace)
  {
    StagesFromReuse(partial, 1, run, db, Start());
  }
}
