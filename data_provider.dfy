/**
 * The market-data providers of core_logic/data_provider.py: the live
 * provider's shaping of what it fetched (news truncation, the history gate on
 * indicators) and the backtest provider, which replays preloaded daily rows
 * through a date cursor.
 */
module DataProvider {
  import opened Wrappers

  /** A trading day (a pandas Timestamp at midnight), by its day ordinal. */
  datatype Date = Date(ordinal: int)

  /** One row of a price DataFrame: column name to value, None for a missing or NaN cell. */
  type Row = map<string, Option<real>>

  /** A ticker's preloaded history: one row per trading day. */
  type Series = map<Date, Row>

  /** A market snapshot: the dictionary both providers return. */
  datatype Snapshot = Snapshot(ticker: string, fundamentals: map<string, Option<real>>,
                               technicals: map<string, Option<real>>, news: seq<string>)

  const PriceKey := "Preço Atual"
  const BacktestNews := "Notícias não disponíveis em modo de backtest."
  const NoNews := "Nenhuma notícia recente encontrada."
  const MaxNews := 5
  const MinHistoryForIndicators := 50

  /** The indicator columns copied into every snapshot. */
  const IndicatorKeys: seq<string> := ["SMA_21", "SMA_50", "RSI_14", "BBL_20_2.0", "BBU_20_2.0",
                                       "MACD_12_26_9", "MACDh_12_26_9", "MACDs_12_26_9"]

  /** `d.get(key)`. */
  function Get(d: map<string, Option<real>>, key: string): Option<real>
  {
    if key in d then d[key] else None
  }

  /** The technical_indicators dictionary built from one row. */
  function Indicators(row: Row): map<string, Option<real>>
  {
    map k | k in IndicatorKeys :: Get(row, k)
  }

  // ---------------------------------------------------------------------------
  // Live provider

  /** A news item as the data source returns it: it may lack a title. */
  datatype NewsItem = NewsItem(title: Option<string>)

  /** `[item['title'] for item in items if 'title' in item]`. */
  function Titles(items: seq<NewsItem>): (r: seq<string>)
    ensures |r| <= |items|
    ensures forall x :: x in r ==> exists i :: 0 <= i < |items| && items[i].title == Some(x)
    ensures forall i :: 0 <= i < |items| && items[i].title.Some? ==> items[i].title.value in r
  {
    if items == [] then []
    else
      var rest := Titles(items[1..]);
      assert forall x :: x in rest ==> exists i :: 0 <= i < |items| && items[i].title == Some(x) by {
        forall x | x in rest ensures exists i :: 0 <= i < |items| && items[i].title == Some(x) {
          var j :| 0 <= j < |items[1..]| && items[1..][j].title == Some(x);
          assert items[j + 1].title == Some(x);
        }
      }
      assert forall i :: 1 <= i < |items| && items[i].title.Some? ==> items[i].title.value in rest by {
        forall i | 1 <= i < |items| && items[i].title.Some? ensures items[i].title.value in rest {
          assert items[1..][i - 1] == items[i];
        }
      }
      match items[0].title
      case Some(t) => [t] + rest
      case None => rest
  }

  /** One item gives its title, or nothing when it has none. */
  lemma TitlesOfOne(item: NewsItem)
    ensures Titles([item]) == if item.title.Some? then [item.title.value] else []
  {
    assert [item][1..] == [];
  }

  /** The filter keeps order: the titles of a concatenation are the concatenated titles. */
  lemma {:induction false} TitlesConcat(a: seq<NewsItem>, b: seq<NewsItem>)
    ensures Titles(a + b) == Titles(a) + Titles(b)
  {
    if a == [] {
      assert a + b == b;
    } else {
      assert (a + b)[1..] == a[1..] + b;
      TitlesConcat(a[1..], b);
    }
  }

  /** The recent_news list: titles of the first five items, or a placeholder when there is no news. */
  function RecentNews(news: seq<NewsItem>): (r: seq<string>)
    ensures news == [] ==> r == [NoNews]
    ensures news != [] ==> |r| <= MaxNews
    ensures news != [] ==> forall x :: x in r ==> exists i :: 0 <= i < MaxNews && i < |news| && news[i].title == Some(x)
    ensures news != [] ==> forall i :: 0 <= i < MaxNews && i < |news| && news[i].title.Some? ==> news[i].title.value in r
  {
    if news == [] then [NoNews]
    else
      var first := if |news| <= MaxNews then news else news[..MaxNews];
      Titles(first)
  }

  /** When each of the first five items has a title, recent_news is exactly those titles, in order. */
  lemma {:induction false} RecentNewsKeepsTitledItems(news: seq<NewsItem>, titles: seq<string>)
    requires news != [] && |titles| == if |news| <= MaxNews then |news| else MaxNews
    requires forall i :: 0 <= i < |titles| ==> news[i].title == Some(titles[i])
    ensures RecentNews(news) == titles
  {
    var first := if |news| <= MaxNews then news else news[..MaxNews];
    TitlesOfTitled(first, titles);
  }

  lemma {:induction false} TitlesOfTitled(items: seq<NewsItem>, titles: seq<string>)
    requires |items| == |titles|
    requires forall i :: 0 <= i < |titles| ==> items[i].title == Some(titles[i])
    ensures Titles(items) == titles
  {
    if items != [] {
      TitlesOfTitled(items[1..], titles[1..]);
    }
  }

  /** News that exists but carries no titles yields an empty list, not the placeholder. */
  lemma UntitledNewsGivesNoTitles()
    ensures RecentNews([NewsItem(None)]) == []
  {
  }

  /**
   * DataProvider.get_market_data once the network calls have answered:
   * `info` is the quote metadata, `historyLength` the number of daily rows
   * fetched and `lastRow` the newest of them with its indicators.
   */
  function LiveMarketData(ticker: string, info: map<string, Option<real>>, historyLength: nat,
                          lastRow: Row, news: seq<NewsItem>): (r: Option<Snapshot>)
    ensures r.None? <==> |info| == 0 || "currentPrice" !in info
    ensures r.Some? ==> r.value.ticker == ticker && Get(r.value.fundamentals, PriceKey) == info["currentPrice"]
    ensures r.Some? ==> (r.value.technicals == map[] <==> historyLength <= MinHistoryForIndicators)
    ensures r.Some? && historyLength > MinHistoryForIndicators ==> r.value.technicals == Indicators(lastRow)
    ensures r.Some? ==> r.value.news == RecentNews(news)
  {
    if |info| == 0 || "currentPrice" !in info then None
    else
      var technicals := if historyLength > MinHistoryForIndicators then Indicators(lastRow) else map[];
      assert historyLength > MinHistoryForIndicators ==> "SMA_21" in technicals;
      var fundamentals := map[
        PriceKey := Get(info, "currentPrice"), "P/L" := Get(info, "trailingPE"),
        "ROE" := Get(info, "returnOnEquity"), "Dívida/Patrimônio" := Get(info, "debtToEquity"),
        "Dividend Yield" := Get(info, "dividendYield"), "Margem Líquida" := Get(info, "profitMargins")];
      Some(Snapshot(ticker, fundamentals, technicals, RecentNews(news)))
  }

  // ---------------------------------------------------------------------------
  // Backtest provider

  /** The dates observed for at least one loaded ticker. */
  ghost predicate Observed(data: map<string, Series>, d: Date)
  {
    exists t :: t in data && d in data[t]
  }

  predicate StrictlyIncreasing(s: seq<Date>)
  {
    forall i, j :: 0 <= i < j < |s| ==> s[i].ordinal < s[j].ordinal
  }

  /**
   * get_market_data of the backtest provider: the row of `ticker` at the
   * cursor, or None.
   */
  function MarketDataAt(data: map<string, Series>, currentDate: Option<Date>, ticker: string): (r: Option<Snapshot>)
    ensures r.Some? <==> (ticker in data && currentDate.Some? && currentDate.value in data[ticker]
                          && Get(data[ticker][currentDate.value], "Close").Some?)
    ensures ticker !in data || currentDate.None? ==> r.None?
    ensures ticker in data && currentDate.Some? && currentDate.value !in data[ticker] ==> r.None?
    ensures (ticker in data && currentDate.Some? && currentDate.value in data[ticker]
             && Get(data[ticker][currentDate.value], "Close").None?) ==> r.None?
    ensures r.Some? ==>
      && ticker in data && currentDate.Some? && currentDate.value in data[ticker]
      && var row := data[ticker][currentDate.value];
      && Get(row, "Close").Some?
      && r.value.ticker == ticker
      && r.value.fundamentals == map[PriceKey := Get(row, "Close")]
      && r.value.technicals == Indicators(row)
      && r.value.news == [BacktestNews]
  {
    if ticker !in data || currentDate.None? then None
    else
      var df := data[ticker];
      if currentDate.value !in df then None
      else
        var dayData := df[currentDate.value];
        var currentPrice := Get(dayData, "Close");
        if currentPrice.None? then None
        else Some(Snapshot(ticker, map[PriceKey := currentPrice], Indicators(dayData), [BacktestNews]))
  }

  /** The history of every ticker cut off after `date`. */
  function UpTo(data: map<string, Series>, date: Date): map<string, Series>
  {
    map t | t in data :: map d | d in data[t] && d.ordinal <= date.ordinal :: data[t][d]
  }

  /**
   * No look-ahead in the lookup: deleting every row after the cursor does not
   * change the snapshot. This holds because the indicators are columns stored
   * in each row; it says nothing about whether those precomputed indicator
   * values themselves used later rows.
   */
  lemma NoLookahead(data: map<string, Series>, date: Date, ticker: string)
    ensures MarketDataAt(UpTo(data, date), Some(date), ticker) == MarketDataAt(data, Some(date), ticker)
  {
    if ticker in data && date in data[ticker] {
      assert UpTo(data, date)[ticker][date] == data[ticker][date];
    }
  }

  /** No carry-forward: a ticker with no row at the cursor has no snapshot, whatever earlier rows it has. */
  lemma NoCarryForward(data: map<string, Series>, date: Date, ticker: string, earlier: Date)
    requires ticker in data && earlier.ordinal < date.ordinal && earlier in data[ticker] && date !in data[ticker]
    ensures MarketDataAt(data, Some(date), ticker) == None
  {
  }

  /** Every finite set of dates has a least element. */
  lemma {:induction false} HasMinimum(s: set<Date>)
    requires s != {}
    ensures exists m :: m in s && IsLeast(m, s)
    decreases |s|
  {
    var x :| x in s;
    var rest := s - {x};
    if rest == {} {
      assert s == {x};
      assert IsLeast(x, s);
    } else {
      HasMinimum(rest);
      var m :| m in rest && IsLeast(m, rest);
      assert s == rest + {x};
      if x.ordinal < m.ordinal {
        assert IsLeast(x, s);
      } else {
        assert IsLeast(m, s);
      }
    }
  }

  /** `m` is no later than any date of `s`. */
  predicate IsLeast(m: Date, s: set<Date>)
  {
    forall y :: y in s ==> m.ordinal <= y.ordinal
  }

  /** `sort_values()` on a set of dates. */
  method SortDates(dates: set<Date>) returns (sorted: seq<Date>)
    ensures StrictlyIncreasing(sorted)
    ensures forall d :: d in sorted <==> d in dates
  {
    sorted := [];
    var rest := dates;
    while rest != {}
      invariant rest <= dates
      invariant StrictlyIncreasing(sorted)
      invariant forall d :: d in sorted <==> d in dates && d !in rest
      invariant forall i, d :: 0 <= i < |sorted| && d in rest ==> sorted[i].ordinal < d.ordinal
      decreases |rest|
    {
      HasMinimum(rest);
      var m :| m in rest && IsLeast(m, rest);
      sorted := sorted + [m];
      rest := rest - {m};
    }
  }

  /**
   * `_preload_all_data`: download each requested ticker and keep those that
   * came back with at least one row (a failed download is None).
   */
  method PreloadAllData(tickers: seq<string>, download: string -> Option<Series>) returns (allData: map<string, Series>)
    ensures forall t :: t in allData <==> t in tickers && download(t).Some? && download(t).value != map[]
    ensures forall t :: t in allData ==> allData[t] == download(t).value
  {
    allData := map[];
    var i := 0;
    while i < |tickers|
      invariant 0 <= i <= |tickers|
      invariant forall t :: t in allData <==> t in tickers[..i] && download(t).Some? && download(t).value != map[]
      invariant forall t :: t in allData ==> allData[t] == download(t).value
    {
      var ticker := tickers[i];
      var df := download(ticker);
      assert tickers[..i + 1] == tickers[..i] + [ticker];
      if df.Some? && df.value != map[] {
        allData := allData[ticker := df.value];
      }
      i := i + 1;
    }
    assert tickers[..|tickers|] == tickers;
  }

  class BacktestDataProvider {
    const tickers: seq<string>
    const historicalData: map<string, Series>
    var currentDate: Option<Date>

    /** A provider whose history is preloaded once; the cursor starts unset. */
    constructor (tickers: seq<string>, download: string -> Option<Series>)
      ensures this.tickers == tickers && currentDate == None
      ensures forall t :: t in historicalData <==> t in tickers && download(t).Some? && download(t).value != map[]
      ensures forall t :: t in historicalData ==> historicalData[t] == download(t).value
    {
      this.tickers := tickers;
      var all := PreloadAllData(tickers, download);
      historicalData := all;
      currentDate := None;
    }

    /** `set_current_date`: moves the replay cursor and nothing else. */
    method SetCurrentDate(date: Option<Date>)
      modifies this`currentDate
      ensures currentDate == date
    {
      currentDate := date;
    }

    /** `get_trading_days`: the sorted union of every loaded ticker's dates. */
    method GetTradingDays() returns (days: seq<Date>)
      ensures StrictlyIncreasing(days)
      ensures forall d :: d in days <==> Observed(historicalData, d)
      ensures historicalData == map[] ==> days == []
    {
      if historicalData == map[] {
        return [];
      }
      var allDays: set<Date> := {};
      var pending := historicalData.Keys;
      while pending != {}
        invariant pending <= historicalData.Keys
        invariant forall d :: d in allDays <==> exists t :: t in historicalData && t !in pending && d in historicalData[t]
        decreases pending
      {
        var ticker :| ticker in pending;
        allDays := allDays + historicalData[ticker].Keys;
        pending := pending - {ticker};
      }
      days := SortDates(allDays);
    }

    /** `get_market_data` of the backtest provider. */
    function GetMarketData(ticker: string): (r: Option<Snapshot>)
      reads this
      ensures r == MarketDataAt(historicalData, currentDate, ticker)
      ensures currentDate.None? || ticker !in historicalData ==> r.None?
      ensures r.Some? ==> r.value.ticker == ticker && r.value.news == [BacktestNews]
      ensures r.Some? ==>
        && currentDate.value in historicalData[ticker]
        && r.value.fundamentals == map[PriceKey := Get(historicalData[ticker][currentDate.value], "Close")]
    {
      MarketDataAt(historicalData, currentDate, ticker)
    }
  }
}
