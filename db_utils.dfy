/**
 * The lookups the pipeline builds from database rows. The queries
 * themselves are parameters: a query is any function from its arguments
 * to the rows it returns.
 */
module DbUtils {
  import opened PyDict

  /** An option contract: the four fields of the OptionTicker record, in order. */
  datatype OptionTicker = OptionTicker(oTicker: string, id: int, expirationDate: int, underlyingTicker: string)

  /** A stock-ticker row as the query returns it: (id, ticker). */
  type StockRow = (int, string)

  /** An options-ticker row as the query returns it: (o_ticker, id, expiration_date, underlying_ticker). */
  type OptionRow = (string, int, int, string)

  /** query_stock_tickers(tickers, all_). */
  type StockQuery = (seq<string>, bool) -> seq<StockRow>

  /** query_options_tickers(stock_tickers, all_, unexpired). */
  type OptionQuery = (seq<string>, bool, bool) -> seq<OptionRow>

  type TickerLookup = Dict<string, int>
  type OTickerLookup = Dict<string, OptionTicker>

  /** `OptionTicker(*row)`. */
  function FromRow(row: OptionRow): (t: OptionTicker)
    ensures t.oTicker == row.0 && t.id == row.1 && t.expirationDate == row.2 && t.underlyingTicker == row.3
  {
    OptionTicker(row.0, row.1, row.2, row.3)
  }

  function StockPairs(rows: seq<StockRow>): (ps: seq<(string, int)>)
    ensures |ps| == |rows| && forall i :: 0 <= i < |rows| ==> ps[i] == (rows[i].1, rows[i].0)
  {
    seq(|rows|, i requires 0 <= i < |rows| => (rows[i].1, rows[i].0))
  }

  function OptionPairs(rows: seq<OptionRow>): (ps: seq<(string, OptionTicker)>)
    ensures |ps| == |rows| && forall i :: 0 <= i < |rows| ==> ps[i] == (rows[i].0, FromRow(rows[i]))
  {
    seq(|rows|, i requires 0 <= i < |rows| => (rows[i].0, FromRow(rows[i])))
  }

  /** pull_tickers_from_db: a dict (not a list) from each row's ticker to its id. */
  function PullTickersFromDb(query: StockQuery, tickers: seq<string>, allTickers: bool): (lookup: TickerLookup)
    ensures Wf(lookup)
  {
    FromPairsSemantics(StockPairs(query(tickers, allTickers)));
    FromPairs(StockPairs(query(tickers, allTickers)))
  }

  /**
   * The lookup pull_tickers_from_db returns is built from the rows the query
   * returns for exactly these arguments: its keys are the rows' tickers, and
   * of two rows with the same ticker the later one gives the id.
   */
  lemma PullTickersFacts(query: StockQuery, tickers: seq<string>, allTickers: bool)
    ensures var rows := query(tickers, allTickers);
            var lookup := PullTickersFromDb(query, tickers, allTickers);
            && lookup.entries.Keys == (set i | 0 <= i < |rows| :: rows[i].1)
            && forall i :: 0 <= i < |rows| && LastWith(StockPairs(rows), i) ==> lookup.entries[rows[i].1] == rows[i].0
  {
    var rows := query(tickers, allTickers);
    var ps := StockPairs(rows);
    FromPairsSemantics(ps);
    assert KeysOf(ps) == set i | 0 <= i < |rows| :: rows[i].1 by {
      assert forall i :: 0 <= i < |rows| ==> ps[i].0 == rows[i].1;
    }
  }

  /** generate_o_ticker_lookup: a dict from each row's o_ticker to the record of the row. */
  function GenerateOTickerLookup(query: OptionQuery, tickers: seq<string>, allTickers: bool, unexpired: bool)
    : (lookup: OTickerLookup)
    ensures Wf(lookup)
  {
    FromPairsSemantics(OptionPairs(query(tickers, allTickers, unexpired)));
    FromPairs(OptionPairs(query(tickers, allTickers, unexpired)))
  }

  /**
   * The lookup generate_o_ticker_lookup returns has one entry per distinct
   * o_ticker of the rows the query returns for exactly these arguments; each
   * key maps to a record built from one of those rows whose o_ticker is that
   * key, the last such row.
   */
  lemma GenerateOTickerLookupFacts(query: OptionQuery, tickers: seq<string>, allTickers: bool, unexpired: bool)
    ensures var rows := query(tickers, allTickers, unexpired);
            var m := GenerateOTickerLookup(query, tickers, allTickers, unexpired).entries;
            && m.Keys == (set i | 0 <= i < |rows| :: rows[i].0)
            && (forall k :: k in m ==> m[k].oTicker == k)
            && (forall k :: k in m ==> exists i :: 0 <= i < |rows| && m[k] == FromRow(rows[i]))
            && forall i :: 0 <= i < |rows| && LastWith(OptionPairs(rows), i) ==> m[rows[i].0] == FromRow(rows[i])
  {
    OptionLookupFacts(query(tickers, allTickers, unexpired));
  }

  /** The facts above, for the dict built from a given list of rows. */
  lemma OptionLookupFacts(rows: seq<OptionRow>)
    ensures var m := FromPairs(OptionPairs(rows)).entries;
            && m.Keys == (set i | 0 <= i < |rows| :: rows[i].0)
            && (forall k :: k in m ==> m[k].oTicker == k)
            && (forall k :: k in m ==> exists i :: 0 <= i < |rows| && m[k] == FromRow(rows[i]))
            && forall i :: 0 <= i < |rows| && LastWith(OptionPairs(rows), i) ==> m[rows[i].0] == FromRow(rows[i])
  {
    var ps := OptionPairs(rows);
    FromPairsSemantics(ps);
    var m := FromPairs(ps).entries;
    assert KeysOf(ps) == set i | 0 <= i < |rows| :: rows[i].0 by {
      assert forall i :: 0 <= i < |rows| ==> ps[i].0 == rows[i].0;
    }
    forall k | k in m
      ensures m[k].oTicker == k && exists i :: 0 <= i < |rows| && m[k] == FromRow(rows[i])
    {
      var i :| 0 <= i < |ps| && ps[i].0 == k && ps[i].1 == m[k];
      assert m[k] == FromRow(rows[i]);
    }
  }
}
