/**
 * The computations behind report_view in trading_app/views.py: the KPI loop
 * that pairs every SELL with the oldest unmatched BUY of its ticker (FIFO),
 * the win rate, and the running balance drawn in the chart.
 */
module ReportKpis {
  import opened Models

  /** The variables of the KPI loop: total_trades, winning_trades, total_pl and buy_operations. */
  datatype KpiState = KpiState(total: nat, winning: nat, pl: real, open: map<string, seq<Trade>>)

  /** What report_view hands to its template (chart labels left out). */
  datatype ReportData = ReportData(totalPl: real, winRate: real, totalTrades: nat, winningTrades: nat, chart: seq<real>)

  const Start := KpiState(0, 0, 0.0, map[])

  /** `buy_operations.get(ticker, [])`: the BUYs of a ticker still waiting for a SELL, oldest first. */
  function OpenBuys(s: KpiState, ticker: string): seq<Trade>
  {
    if ticker in s.open then s.open[ticker] else []
  }

  /** Profit of a SELL against the BUY it closes, counted on the SELL's quantity. */
  function MatchPl(sell: Trade, buy: Trade): real
  {
    (sell.price - buy.price) * sell.quantity as real
  }

  /** One iteration of the KPI loop. */
  function KpiStep(s: KpiState, t: Trade): KpiState
  {
    match t.side
    case Buy => s.(open := s.open[t.ticker := OpenBuys(s, t.ticker) + [t]])
    case Sell =>
      if t.ticker in s.open && s.open[t.ticker] != [] then
        var pl := MatchPl(t, s.open[t.ticker][0]);
        KpiState(s.total + 1, if pl > 0.0 then s.winning + 1 else s.winning, s.pl + pl,
                 s.open[t.ticker := s.open[t.ticker][1..]])
      else s
  }

  /** The KPI loop run over a history, oldest trade first. */
  function Kpi(h: seq<Trade>): KpiState
  {
    if h == [] then Start else KpiStep(Kpi(h[..|h| - 1]), h[|h| - 1])
  }

  /** `winning_trades / total_trades * 100`, or 0 when no trade was matched. */
  function WinRate(winning: nat, total: nat): (r: real)
    ensures total == 0 ==> r == 0.0
    ensures winning <= total ==> 0.0 <= r <= 100.0
    ensures total > 0 && winning == total ==> r == 100.0
  {
    if total > 0 then
      var ratio := winning as real / total as real;
      assert winning <= total ==> ratio <= 1.0;
      ratio * 100.0
    else 0.0
  }

  // ---------------------------------------------------------------------------
  // Reference definitions, independent of buy_operations

  /** Number of records on one side. */
  function CountSide(h: seq<Trade>, side: Side): nat
  {
    if h == [] then 0 else CountSide(h[..|h| - 1], side) + (if h[|h| - 1].side == side then 1 else 0)
  }

  /** The BUY records of one ticker, in history order. */
  function BuysOf(h: seq<Trade>, ticker: string): seq<Trade>
  {
    if h == [] then []
    else
      var t := h[|h| - 1];
      BuysOf(h[..|h| - 1], ticker) + (if t.side == Buy && t.ticker == ticker then [t] else [])
  }

  /** How many SELLs of one ticker found an earlier BUY of that ticker still unmatched. */
  function MatchedOf(h: seq<Trade>, ticker: string): nat
  {
    if h == [] then 0
    else
      var p := h[..|h| - 1];
      var t := h[|h| - 1];
      var m := MatchedOf(p, ticker);
      if t.side == Sell && t.ticker == ticker && m < |BuysOf(p, ticker)| then m + 1 else m
  }

  /** Total length of the lists of a map, over the given keys. */
  ghost function SizeOver(m: map<string, seq<Trade>>, keys: set<string>): nat
    requires keys <= m.Keys
    decreases keys
  {
    if keys == {} then 0 else var k :| k in keys; |m[k]| + SizeOver(m, keys - {k})
  }

  /** Number of BUYs still unmatched, over all tickers. */
  ghost function OpenSize(s: KpiState): nat
  {
    SizeOver(s.open, s.open.Keys)
  }

  // ---------------------------------------------------------------------------
  // Properties of the KPI loop

  lemma {:induction false} SizeOverRemove(m: map<string, seq<Trade>>, keys: set<string>, k: string)
    requires keys <= m.Keys && k in keys
    ensures SizeOver(m, keys) == |m[k]| + SizeOver(m, keys - {k})
    decreases keys
  {
    var j :| j in keys && SizeOver(m, keys) == |m[j]| + SizeOver(m, keys - {j});
    if j != k {
      SizeOverRemove(m, keys - {j}, k);
      SizeOverRemove(m, keys - {k}, j);
      assert keys - {j} - {k} == keys - {k} - {j};
    }
  }

  lemma {:induction false} SizeOverAgree(m: map<string, seq<Trade>>, n: map<string, seq<Trade>>, keys: set<string>)
    requires keys <= m.Keys && keys <= n.Keys
    requires forall x :: x in keys ==> m[x] == n[x]
    ensures SizeOver(m, keys) == SizeOver(n, keys)
    decreases keys
  {
    if keys != {} {
      var k :| k in keys;
      SizeOverRemove(m, keys, k);
      SizeOverRemove(n, keys, k);
      SizeOverAgree(m, n, keys - {k});
    }
  }

  /** Replacing the list of one ticker changes the number of open BUYs by the difference in length. */
  lemma OpenSizeUpdate(s: KpiState, k: string, v: seq<Trade>)
    ensures OpenSize(s.(open := s.open[k := v])) + |OpenBuys(s, k)| == OpenSize(s) + |v|
  {
    var m := s.open;
    var n := m[k := v];
    SizeOverRemove(n, n.Keys, k);
    SizeOverAgree(m, n, m.Keys - {k});
    if k in m {
      SizeOverRemove(m, m.Keys, k);
      assert n.Keys - {k} == m.Keys - {k};
    } else {
      assert n.Keys - {k} == m.Keys == m.Keys - {k};
      assert SizeOver(n, n.Keys - {k}) == SizeOver(m, m.Keys);
    }
  }

  /** Counters never run past each other: winning <= total <= number of SELL records. */
  lemma {:induction false} CountersBounded(h: seq<Trade>)
    ensures Kpi(h).winning <= Kpi(h).total <= CountSide(h, Sell)
  {
    if h != [] {
      CountersBounded(h[..|h| - 1]);
    }
  }

  /** Every BUY record is either matched by a counted SELL or still open. */
  lemma {:induction false} EveryBuyMatchedOrOpen(h: seq<Trade>)
    ensures Kpi(h).total + OpenSize(Kpi(h)) == CountSide(h, Buy)
  {
    if h == [] {
      assert OpenSize(Start) == 0;
    } else {
      var p := h[..|h| - 1];
      var t := h[|h| - 1];
      var s := Kpi(p);
      EveryBuyMatchedOrOpen(p);
      match t.side
      case Buy =>
        OpenSizeUpdate(s, t.ticker, OpenBuys(s, t.ticker) + [t]);
      case Sell =>
        if t.ticker in s.open && s.open[t.ticker] != [] {
          OpenSizeUpdate(s, t.ticker, s.open[t.ticker][1..]);
        }
    }
  }

  /** The matched trades never outnumber the BUY records. */
  lemma MatchedAtMostBuys(h: seq<Trade>)
    ensures Kpi(h).winning <= Kpi(h).total <= CountSide(h, Buy)
  {
    CountersBounded(h);
    EveryBuyMatchedOrOpen(h);
  }

  /**
   * FIFO: the open BUYs of a ticker are exactly its BUY records with the
   * oldest MatchedOf(h, ticker) of them removed.
   */
  lemma {:induction false} OpenBuysAreOldestUnmatched(h: seq<Trade>, ticker: string)
    ensures MatchedOf(h, ticker) <= |BuysOf(h, ticker)|
    ensures OpenBuys(Kpi(h), ticker) == BuysOf(h, ticker)[MatchedOf(h, ticker)..]
  {
    if h != [] {
      var p := h[..|h| - 1];
      var t := h[|h| - 1];
      OpenBuysAreOldestUnmatched(p, ticker);
      var b := BuysOf(p, ticker);
      var m := MatchedOf(p, ticker);
      if t.side == Buy && t.ticker == ticker {
        assert (b + [t])[m..] == b[m..] + [t];
      }
    }
  }

  /**
   * A SELL that finds an unmatched BUY of its ticker is counted and closes the
   * oldest such BUY; its profit is taken against that BUY's price.
   */
  lemma SellClosesOldestBuy(h: seq<Trade>, t: Trade)
    requires t.side == Sell
    requires MatchedOf(h, t.ticker) < |BuysOf(h, t.ticker)|
    ensures var oldest := BuysOf(h, t.ticker)[MatchedOf(h, t.ticker)];
      && Kpi(h + [t]).total == Kpi(h).total + 1
      && Kpi(h + [t]).pl == Kpi(h).pl + MatchPl(t, oldest)
      && Kpi(h + [t]).winning == Kpi(h).winning + (if MatchPl(t, oldest) > 0.0 then 1 else 0)
  {
    OpenBuysAreOldestUnmatched(h, t.ticker);
    assert (h + [t])[..|h + [t]| - 1] == h;
  }

  /** A SELL with no unmatched BUY of its ticker is skipped: nothing changes. */
  lemma UnmatchedSellSkipped(h: seq<Trade>, t: Trade)
    requires t.side == Sell
    requires MatchedOf(h, t.ticker) == |BuysOf(h, t.ticker)|
    ensures Kpi(h + [t]) == Kpi(h)
  {
    OpenBuysAreOldestUnmatched(h, t.ticker);
    assert (h + [t])[..|h + [t]| - 1] == h;
  }

  // ---------------------------------------------------------------------------
  // The chart's running balance

  /** The signed cash effect of a record: a BUY pays out, anything else pays in. */
  function CashFlow(t: Trade): real
  {
    if t.side == Buy then -TradeValue(t.price, t.quantity) else TradeValue(t.price, t.quantity)
  }

  /** The cash effect of a whole history. */
  function NetFlow(h: seq<Trade>): real
  {
    if h == [] then 0.0 else NetFlow(h[..|h| - 1]) + CashFlow(h[|h| - 1])
  }

  /** `sum(pos.quantity * pos.buy_price for pos in positions)`. */
  function PositionsValue(positions: seq<Position>): real
  {
    if positions == [] then 0.0
    else positions[0].quantity as real * positions[0].buyPrice + PositionsValue(positions[1..])
  }

  /** The balances the chart loop appends, starting from `start`: one point per record. */
  function Replay(start: real, h: seq<Trade>): seq<real>
  {
    if h == [] then [] else Replay(start, h[..|h| - 1]) + [start + NetFlow(h)]
  }

  /** The chart series as report_view builds it. */
  function Chart(balance: real, positions: seq<Position>, h: seq<Trade>, totalPl: real): seq<real>
  {
    (if h == [] then [] else [balance + PositionsValue(positions) - totalPl]) + Replay(balance, h)
  }

  /** Point i of the replay is the start plus the cash effect of the first i + 1 records. */
  lemma {:induction false} ReplayAt(start: real, h: seq<Trade>, i: nat)
    requires i < |h|
    ensures |Replay(start, h)| == |h|
    ensures Replay(start, h)[i] == start + NetFlow(h[..i + 1])
  {
    var p := h[..|h| - 1];
    if i < |p| {
      ReplayAt(start, p, i);
      assert p[..i + 1] == h[..i + 1];
    } else {
      assert h[..i + 1] == h;
      if p != [] { ReplayAt(start, p, 0); }
    }
  }

  /**
   * As written, the chart starts the replay from the balance left AFTER all
   * the trades: its last point is off the current balance by the history's
   * whole cash effect.
   */
  lemma ChartLastPointAsWritten(balance: real, positions: seq<Position>, h: seq<Trade>, totalPl: real)
    requires h != []
    ensures var c := Chart(balance, positions, h, totalPl); c[|c| - 1] == balance + NetFlow(h)
  {
    ReplayAt(balance, h, |h| - 1);
    assert h[..|h|] == h;
  }

  /** One bought lot: the chart ends at 8000 while the account holds 9000. */
  lemma ChartCounterexample()
    ensures Chart(9000.0, [Position("PETR4", 10, 100.0)], [Trade("PETR4", Buy, 10, 100.0)], 0.0)
         == [10000.0, 8000.0]
  {
    var h := [Trade("PETR4", Buy, 10, 100.0)];
    assert h[..0] == [];
    assert NetFlow(h) == -1000.0;
    assert PositionsValue([Position("PETR4", 10, 100.0)]) == 1000.0;
  }

  /** The corrected series: replay from the balance the account held before the first record. */
  function ReplayToBalance(balance: real, h: seq<Trade>): seq<real>
  {
    Replay(balance - NetFlow(h), h)
  }

  /** The corrected series ends at the current balance, and point i is the opening plus the first i + 1 flows. */
  lemma ReplayToBalanceEndsAtBalance(balance: real, h: seq<Trade>, i: nat)
    requires i < |h|
    ensures |ReplayToBalance(balance, h)| == |h|
    ensures ReplayToBalance(balance, h)[i] == balance - NetFlow(h) + NetFlow(h[..i + 1])
    ensures ReplayToBalance(balance, h)[|h| - 1] == balance
  {
    ReplayAt(balance - NetFlow(h), h, i);
    ReplayAt(balance - NetFlow(h), h, |h| - 1);
    assert h[..|h|] == h;
  }
}
