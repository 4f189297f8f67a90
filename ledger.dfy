/**
 * The portfolio ledger of trading_app/views.py with the web plumbing taken
 * away: execute_trade_view (BUY / SELL fills), update_balance_view (manual
 * balance adjustment) and the numbers report_view computes.
 */
module Ledger {
  import opened Wrappers
  import opened Models
  import opened ReportKpis

  /** The stored state of one user's portfolio: balance, Position rows and TradeHistory rows. */
  datatype Account = Account(balance: real, positions: seq<Position>, history: seq<Trade>)

  /** The message each request ends with. */
  datatype Outcome =
    | Bought                // "Compra ... executada com sucesso!"
    | Sold                  // "Venda ... executada com sucesso!"
    | InsufficientBalance   // "Saldo insuficiente para executar a compra."
    | PositionNotFound      // "Posição não encontrada para venda."
    | UnknownAction         // an action other than 'BUY' / 'SELL': nothing is done
    | BalanceAdjusted       // "Saldo ajustado em ..."
    | NegativeBalanceRefused // "Não é possível deixar o saldo negativo."

  datatype Step = Step(account: Account, outcome: Outcome)

  /** The effect of execute_trade_view on the stored portfolio. */
  function TradeStep(a: Account, action: string, ticker: string, quantity: int, price: real): Step
  {
    if action == "BUY" then
      var value := TradeValue(price, quantity);
      if a.balance >= value then
        Step(Account(a.balance - value, a.positions + [Position(ticker, quantity, price)],
                     a.history + [Trade(ticker, Buy, quantity, price)]), Bought)
      else Step(a, InsufficientBalance)
    else if action == "SELL" then
      match FirstIndex(a.positions, ticker)
      case None => Step(a, PositionNotFound)
      case Some(i) =>
        Step(Account(a.balance + TradeValue(price, quantity), RemoveAt(a.positions, i),
                     a.history + [Trade(ticker, Sell, quantity, price)]), Sold)
    else Step(a, UnknownAction)
  }

  /** The effect of update_balance_view on the stored portfolio. */
  function BalanceStep(a: Account, amount: real): Step
  {
    if a.balance + amount >= 0.0 then Step(a.(balance := a.balance + amount), BalanceAdjusted)
    else Step(a, NegativeBalanceRefused)
  }

  /** A request to one of the two views. */
  datatype Request =
    | TradeRequest(action: string, ticker: string, quantity: int, price: real)
    | BalanceRequest(amount: real)

  function Serve(a: Account, r: Request): Account
  {
    match r
    case TradeRequest(action, ticker, quantity, price) => TradeStep(a, action, ticker, quantity, price).account
    case BalanceRequest(amount) => BalanceStep(a, amount).account
  }

  /** The portfolio after serving a sequence of requests in order. */
  function Run(a: Account, rs: seq<Request>): Account
  {
    if rs == [] then a else Serve(Run(a, rs[..|rs| - 1]), rs[|rs| - 1])
  }

  /** No SELL request in the sequence credits a negative amount. */
  predicate CreditsNonNegative(rs: seq<Request>)
  {
    forall i :: 0 <= i < |rs| && rs[i].TradeRequest? && rs[i].action == "SELL" ==>
      TradeValue(rs[i].price, rs[i].quantity) >= 0.0
  }

  /** Only trades, no manual balance adjustment. */
  predicate TradesOnly(rs: seq<Request>)
  {
    forall i :: 0 <= i < |rs| ==> rs[i].TradeRequest?
  }

  // ---------------------------------------------------------------------------
  // One request at a time

  /** An accepted BUY debits exactly price * quantity, adds one Position and one BUY record. */
  lemma BuyAccepted(a: Account, ticker: string, quantity: int, price: real)
    requires a.balance >= TradeValue(price, quantity)
    ensures var s := TradeStep(a, "BUY", ticker, quantity, price);
      && s.outcome == Bought
      && s.account.balance == a.balance - price * quantity as real
      && s.account.balance >= 0.0
      && s.account.positions == a.positions + [Position(ticker, quantity, price)]
      && s.account.history == a.history + [Trade(ticker, Buy, quantity, price)]
  {
  }

  /** A BUY the balance cannot cover changes nothing. */
  lemma BuyRefused(a: Account, ticker: string, quantity: int, price: real)
    requires a.balance < TradeValue(price, quantity)
    ensures TradeStep(a, "BUY", ticker, quantity, price) == Step(a, InsufficientBalance)
  {
  }

  /**
   * BUY never looks at the open positions: buying a ticker already held adds
   * a second position in it.
   */
  lemma RepeatBuyAddsPosition(a: Account, ticker: string, quantity: int, price: real)
    requires a.balance >= TradeValue(price, quantity)
    ensures CountPositions(TradeStep(a, "BUY", ticker, quantity, price).account.positions, ticker)
         == CountPositions(a.positions, ticker) + 1
  {
    CountConcat(a.positions, [Position(ticker, quantity, price)], ticker);
    assert [Position(ticker, quantity, price)][1..] == [];
  }

  /**
   * An accepted SELL credits price * quantity of the REQUESTED quantity,
   * deletes exactly the oldest position in the ticker, keeps every other
   * position in order, and appends one SELL record.
   */
  lemma SellAccepted(a: Account, ticker: string, quantity: int, price: real)
    requires HasPosition(a.positions, ticker)
    ensures var s := TradeStep(a, "SELL", ticker, quantity, price);
      exists i :: 0 <= i < |a.positions|
        && a.positions[i].ticker == ticker
        && (forall j :: 0 <= j < i ==> a.positions[j].ticker != ticker)
        && s.outcome == Sold
        && s.account.balance == a.balance + price * quantity as real
        && s.account.positions == a.positions[..i] + a.positions[i + 1..]
        && s.account.history == a.history + [Trade(ticker, Sell, quantity, price)]
  {
    var i := FirstIndex(a.positions, ticker).value;
    assert a.positions[i].ticker == ticker;
  }

  /** A SELL lowers the count of positions in its ticker by one and no other ticker's count. */
  lemma SellRemovesOnePosition(a: Account, ticker: string, quantity: int, price: real, other: string)
    requires HasPosition(a.positions, ticker)
    ensures CountPositions(TradeStep(a, "SELL", ticker, quantity, price).account.positions, other)
         == CountPositions(a.positions, other) - (if other == ticker then 1 else 0)
  {
    var i := FirstIndex(a.positions, ticker).value;
    RemoveAtCounts(a.positions, i, other);
  }

  /**
   * After a SELL the ticker is no longer held only if it was held once:
   * with two positions in it, one stays open.
   */
  lemma SellLiquidatesOnlySinglePosition(a: Account, ticker: string, quantity: int, price: real)
    requires HasPosition(a.positions, ticker)
    ensures !HasPosition(TradeStep(a, "SELL", ticker, quantity, price).account.positions, ticker)
        <==> CountPositions(a.positions, ticker) == 1
  {
    SellRemovesOnePosition(a, ticker, quantity, price, ticker);
    HasPositionIffCount(a.positions, ticker);
    HasPositionIffCount(TradeStep(a, "SELL", ticker, quantity, price).account.positions, ticker);
  }

  /** A SELL of a ticker not held changes nothing. */
  lemma SellRefused(a: Account, ticker: string, quantity: int, price: real)
    requires !HasPosition(a.positions, ticker)
    ensures TradeStep(a, "SELL", ticker, quantity, price) == Step(a, PositionNotFound)
  {
  }

  /** A request whose action is neither 'BUY' nor 'SELL' changes nothing. */
  lemma UnknownActionIgnored(a: Account, action: string, ticker: string, quantity: int, price: real)
    requires action != "BUY" && action != "SELL"
    ensures TradeStep(a, action, ticker, quantity, price) == Step(a, UnknownAction)
  {
  }

  /** An adjustment is applied exactly when the result is non-negative; a refused one changes nothing. */
  lemma AdjustmentAppliedIff(a: Account, amount: real)
    ensures var s := BalanceStep(a, amount);
      && (s.outcome == BalanceAdjusted <==> a.balance + amount >= 0.0)
      && (s.outcome == BalanceAdjusted ==> s.account == a.(balance := a.balance + amount))
      && (s.outcome != BalanceAdjusted ==> s.account == a)
      && (s.outcome == BalanceAdjusted ==> s.account.balance >= 0.0)
      && (a.balance >= 0.0 ==> s.account.balance >= 0.0)
  {
  }

  // ---------------------------------------------------------------------------
  // Sequences of requests

  /**
   * Balance invariant: from a non-negative balance, any sequence of requests
   * in which no SELL credits a negative amount keeps the balance non-negative.
   */
  lemma {:induction false} BalanceStaysNonNegative(a: Account, rs: seq<Request>)
    requires a.balance >= 0.0
    requires CreditsNonNegative(rs)
    ensures Run(a, rs).balance >= 0.0
  {
    if rs != [] {
      var p := rs[..|rs| - 1];
      assert CreditsNonNegative(p) by {
        forall i | 0 <= i < |p| && p[i].TradeRequest? && p[i].action == "SELL"
          ensures TradeValue(p[i].price, p[i].quantity) >= 0.0
        {
          assert p[i] == rs[i];
        }
      }
      BalanceStaysNonNegative(a, p);
      var r := rs[|rs| - 1];
      assert r.TradeRequest? && r.action == "SELL" ==> TradeValue(r.price, r.quantity) >= 0.0;
    }
  }

  /**
   * execute_trade_view never checks the sign of the quantity: a SELL of -10
   * against a held position debits instead of crediting and leaves the
   * balance negative, which update_balance_view refuses to do.
   */
  lemma NegativeSellOverdraws()
    ensures Run(Account(0.0, [Position("PETR4", 1, 1.0)], []), [TradeRequest("SELL", "PETR4", -10, 100.0)]).balance
         == -1000.0
  {
    var rs := [TradeRequest("SELL", "PETR4", -10, 100.0)];
    assert rs[..0] == [];
    assert TradeValue(100.0, -10) == -1000.0;
  }

  /** Serving one request appends at most one record, and a trade moves the balance by that record's cash flow. */
  lemma ServeAppendsAtMostOne(a: Account, r: Request)
    ensures var b := Serve(a, r);
      || (b.history == a.history && (r.TradeRequest? ==> b.balance == a.balance))
      || (&& |b.history| == |a.history| + 1 && b.history[..|a.history|] == a.history
          && (r.TradeRequest? ==> b.balance == a.balance + CashFlow(b.history[|a.history|])))
  {
    var b := Serve(a, r);
    if b.history != a.history {
      assert b.history[..|a.history|] == a.history;
    }
  }

  /**
   * The trade history is append-only, and without manual adjustments the
   * balance is the opening balance plus the cash effect of the new records.
   */
  lemma {:induction false} HistoryAccountsForBalance(a: Account, rs: seq<Request>)
    ensures |a.history| <= |Run(a, rs).history|
    ensures Run(a, rs).history[..|a.history|] == a.history
    ensures TradesOnly(rs) ==>
      Run(a, rs).balance == a.balance + NetFlow(Run(a, rs).history[|a.history|..])
  {
    if rs != [] {
      var p := rs[..|rs| - 1];
      var r := rs[|rs| - 1];
      HistoryAccountsForBalance(a, p);
      var before := Run(a, p);
      var after := Run(a, rs);
      assert after == Serve(before, r);
      ServeAppendsAtMostOne(before, r);
      var n := |a.history|;
      assert TradesOnly(rs) ==> TradesOnly(p) && r.TradeRequest? by {
        if TradesOnly(rs) {
          forall i | 0 <= i < |p| ensures p[i].TradeRequest? { assert p[i] == rs[i]; }
          assert rs[|rs| - 1].TradeRequest?;
        }
      }
      if after.history != before.history {
        var t := after.history[|before.history|];
        assert after.history == before.history + [t];
        assert after.history[..n] == before.history[..n];
        var tail := after.history[n..];
        assert tail == before.history[n..] + [t];
        assert tail[..|tail| - 1] == before.history[n..];
        assert NetFlow(tail) == NetFlow(before.history[n..]) + CashFlow(t);
      }
    }
  }

  /** When only trades are served, the corrected chart series ends at the ledger's balance. */
  lemma CorrectedChartMatchesLedger(a: Account, rs: seq<Request>)
    requires TradesOnly(rs)
    requires |Run(a, rs).history| > |a.history|
    ensures var h := Run(a, rs).history[|a.history|..];
      ReplayToBalance(Run(a, rs).balance, h) == Replay(a.balance, h)
  {
    HistoryAccountsForBalance(a, rs);
  }

  // ---------------------------------------------------------------------------
  // The stored portfolio, updated in place

  /** The KPI loop of report_view: FIFO-matches each SELL against the oldest open BUY of its ticker. */
  method TallyTrades(history: seq<Trade>) returns (k: KpiState)
    ensures k == Kpi(history)
  {
    var totalTrades: nat := 0;
    var winningTrades: nat := 0;
    var totalPl := 0.0;
    var buyOperations: map<string, seq<Trade>> := map[];
    var i := 0;
    while i < |history|
      invariant 0 <= i <= |history|
      invariant KpiState(totalTrades, winningTrades, totalPl, buyOperations) == Kpi(history[..i])
    {
      var trade := history[i];
      assert history[..i + 1][..i] == history[..i];
      if trade.side == Buy {
        if trade.ticker !in buyOperations {
          buyOperations := buyOperations[trade.ticker := []];
        }
        buyOperations := buyOperations[trade.ticker := buyOperations[trade.ticker] + [trade]];
      } else {
        if trade.ticker in buyOperations && buyOperations[trade.ticker] != [] {
          totalTrades := totalTrades + 1;
          var buyTrade := buyOperations[trade.ticker][0];
          buyOperations := buyOperations[trade.ticker := buyOperations[trade.ticker][1..]];
          var pl := (trade.price - buyTrade.price) * trade.quantity as real;
          totalPl := totalPl + pl;
          if pl > 0.0 {
            winningTrades := winningTrades + 1;
          }
        }
      }
      i := i + 1;
    }
    assert history[..|history|] == history;
    k := KpiState(totalTrades, winningTrades, totalPl, buyOperations);
  }

  /** The chart loop of report_view: a starting point, then the balance replayed trade by trade. */
  method BalanceChart(balance: real, positions: seq<Position>, history: seq<Trade>, totalPl: real)
    returns (chartData: seq<real>)
    ensures chartData == Chart(balance, positions, history, totalPl)
  {
    chartData := [];
    var currentBalance := balance;
    var positionsValue := PositionsValue(positions);
    var initialTotalValue := balance + positionsValue;
    if history != [] {
      chartData := chartData + [initialTotalValue - totalPl];
    }
    ghost var head := chartData;
    var j := 0;
    while j < |history|
      invariant 0 <= j <= |history|
      invariant currentBalance == balance + NetFlow(history[..j])
      invariant chartData == head + Replay(balance, history[..j])
    {
      var trade := history[j];
      assert history[..j + 1][..j] == history[..j];
      var tradeValue := TradeValue(trade.price, trade.quantity);
      if trade.side == Buy {
        currentBalance := currentBalance - tradeValue;
      } else {
        currentBalance := currentBalance + tradeValue;
      }
      chartData := chartData + [currentBalance];
      j := j + 1;
    }
    assert history[..|history|] == history;
  }

  class Portfolio {
    var balance: real
    var positions: seq<Position>
    var history: seq<Trade>

    function State(): Account
      reads this
    {
      Account(balance, positions, history)
    }

    /** A portfolio created at registration: the initial balance, nothing held, nothing traded. */
    constructor (initialBalance: real)
      ensures State() == Account(initialBalance, [], [])
    {
      balance := initialBalance;
      positions := [];
      history := [];
    }

    /** execute_trade_view once the price has been parsed. */
    method ExecuteTrade(action: string, ticker: string, quantity: int, price: real) returns (outcome: Outcome)
      modifies this
      ensures Step(State(), outcome) == TradeStep(old(State()), action, ticker, quantity, price)
    {
      if action == "BUY" {
        var tradeValue := TradeValue(price, quantity);
        if balance >= tradeValue {
          balance := balance - tradeValue;
          positions := positions + [Position(ticker, quantity, price)];
          history := history + [Trade(ticker, Buy, quantity, price)];
          outcome := Bought;
        } else {
          outcome := InsufficientBalance;
        }
      } else if action == "SELL" {
        var positionToSell := FirstIndex(positions, ticker);
        if positionToSell.Some? {
          var tradeValue := TradeValue(price, quantity);
          balance := balance + tradeValue;
          history := history + [Trade(ticker, Sell, quantity, price)];
          positions := RemoveAt(positions, positionToSell.value);
          outcome := Sold;
        } else {
          outcome := PositionNotFound;
        }
      } else {
        outcome := UnknownAction;
      }
    }

    /** update_balance_view once the amount has been parsed. */
    method UpdateBalance(amount: real) returns (outcome: Outcome)
      modifies this
      ensures Step(State(), outcome) == BalanceStep(old(State()), amount)
      ensures outcome == BalanceAdjusted ==> balance >= 0.0
    {
      if balance + amount >= 0.0 {
        balance := balance + amount;
        outcome := BalanceAdjusted;
      } else {
        outcome := NegativeBalanceRefused;
      }
    }

    /** The KPI and chart loops of report_view, over the history in order. */
    method Report() returns (r: ReportData)
      ensures var k := Kpi(history);
        && r.totalTrades == k.total && r.winningTrades == k.winning && r.totalPl == k.pl
      ensures r.winningTrades <= r.totalTrades <= CountSide(history, Buy)
      ensures r.totalTrades <= CountSide(history, Sell)
      ensures r.winRate == WinRate(r.winningTrades, r.totalTrades) && 0.0 <= r.winRate <= 100.0
      ensures r.chart == Chart(balance, positions, history, r.totalPl)
    {
      var kpis := TallyTrades(history);
      MatchedAtMostBuys(history);
      CountersBounded(history);
      var totalTrades := kpis.total;
      var winningTrades := kpis.winning;
      var winRate := if totalTrades > 0 then winningTrades as real / totalTrades as real * 100.0 else 0.0;
      var chartData := BalanceChart(balance, positions, history, kpis.pl);
      r := ReportData(kpis.pl, winRate, totalTrades, winningTrades, chartData);
    }
  }

  /**
   * The two-day round trip: BUY 10 at 100 then SELL 10 at 110 closes one
   * winning trade with a profit of 100 and leaves the balance 100 higher.
   */
  lemma RoundTripExample(opening: real)
    requires opening >= 1000.0
    ensures var a := Run(Account(opening, [], []),
                         [TradeRequest("BUY", "PETR4", 10, 100.0), TradeRequest("SELL", "PETR4", 10, 110.0)]);
      && a.balance == opening + 100.0
      && a.positions == []
      && Kpi(a.history).total == 1 && Kpi(a.history).winning == 1 && Kpi(a.history).pl == 100.0
  {
    var rs := [TradeRequest("BUY", "PETR4", 10, 100.0), TradeRequest("SELL", "PETR4", 10, 110.0)];
    var a0 := Account(opening, [], []);
    assert rs[..1] == [rs[0]] && rs[..1][..0] == [];
    var a1 := Run(a0, rs[..1]);
    assert Run(a0, rs[..1][..0]) == a0;
    assert TradeValue(100.0, 10) == 1000.0;
    assert a1 == TradeStep(a0, "BUY", "PETR4", 10, 100.0).account;
    assert a1 == Account(opening - 1000.0, [Position("PETR4", 10, 100.0)], [Trade("PETR4", Buy, 10, 100.0)]);
    var a2 := Run(a0, rs);
    assert a2 == Account(opening + 100.0, [], [Trade("PETR4", Buy, 10, 100.0), Trade("PETR4", Sell, 10, 110.0)]);
    var h := a2.history;
    assert h[..1] == [h[0]] && h[..1][..0] == [];
  }
}
