# Evolutium trading core in Dafny

Evolutium is a Django application in which a generative model proposes stock
trades for a simulated portfolio on the Brazilian exchange. This project models
the parts of it that decide and book those trades, and proves properties of
the model:

- **Risk rules** (`core_logic/risk_manager.py`, `risk_manager.dfy`). A BUY must
  fit within the per-trade risk budget and must not average into a ticker
  already held. A SELL needs an open position. Any other side passes.
- **The portfolio ledger** (`trading_app/views.py`, `ledger.dfy`, `report.dfy`,
  `models.dfy`). `execute_trade_view` books BUY and SELL fills, and
  `update_balance_view` applies manual balance adjustments. Both are modelled
  as a `Portfolio` class that updates the balance, the Position rows and the
  TradeHistory rows in place. Pure step functions specify those updates. The
  `report_view` KPIs match each SELL first in, first out (FIFO) with the oldest
  open BUY of its ticker. They are modelled by a left fold, with lemmas saying
  what the fold computes. The report's balance chart is modelled as written, and
  a defect in it is recorded under Findings.
- **Reply handling and signal text** (`core_logic/synthesis_engine.py`,
  `synthesis_engine.dfy`, `py_strings.dfy`). The model's reply is cleaned with
  Python's `str.strip` and `str.replace` and then decoded as JSON. The
  technical-analysis summary covers trend, RSI, Bollinger bands and MACD, where
  Python truthiness treats a missing or 0 value as absent. The model also covers
  the last-5 trade-history window, the sell prompt's profit/loss figure, and the
  "model not initialised" guard of the three decision entry points.
- **Market data** (`core_logic/data_provider.py`,
  `data_provider.dfy`). The live provider keeps at most five news titles and
  computes indicators only when it has more than 50 daily rows. The backtest
  provider preloads every ticker's daily rows and sorts the union of their
  dates into a trading calendar. It answers lookups only for the row at its
  date cursor.

Money is `real`, standing in for Django's `Decimal`. Dates are day ordinals. A
missing or NaN cell is `None`. `json.loads` is a parameter
`decode: string -> Option<Json>`. The generative model is a parameter
`complete: Prompt -> string`, in which a failed call already appears as the
empty reply. The risk fraction `config.RISK_PERCENTAGE_PER_TRADE` is a
parameter in (0, 1], because config.py is not part of this model.

Three behaviours of the code are worth stating plainly:

- A repeat BUY of a ticker already held adds a second Position. The risk rule
  at core_logic/risk_manager.py:15-18 refuses averaging in, but the ledger's
  BUY at trading_app/views.py:111-120 never looks at the open positions.
- A SELL credits `price * requested quantity` and deletes only the first
  matching Position (trading_app/views.py:122-128). It does not liquidate the
  whole holding.
- The decoded reply is returned without validating any of its fields
  (core_logic/synthesis_engine.py:177-178).

## Model

| member | source | states |
|---|---|---|
| RiskManager.IsTradeAllowed | evolutium_project/core_logic/risk_manager.py:5-27 | the gate itself: the BUY limit and no-averaging rules, the SELL needs-a-position rule, everything else allowed; its meaning is stated by the lemmas below |
| RiskManager.BuyDeniedOverLimit | evolutium_project/core_logic/risk_manager.py:9-13 | a BUY whose value exceeds balance × risk fraction is denied |
| RiskManager.BuyDeniedWhenHeld | evolutium_project/core_logic/risk_manager.py:15-18 | a BUY of a ticker with an open position is denied (no averaging in) |
| RiskManager.SellDeniedWhenNotHeld | evolutium_project/core_logic/risk_manager.py:20-24 | a SELL of a ticker with no open position is denied |
| RiskManager.BuyAllowedIff | evolutium_project/core_logic/risk_manager.py:9-27 | a BUY is allowed iff value <= balance × risk and the ticker is not held (its count of positions is 0) |
| RiskManager.SellAllowedIff | evolutium_project/core_logic/risk_manager.py:20-27 | a SELL is allowed iff the ticker is held |
| RiskManager.OtherSideAllowed | evolutium_project/core_logic/risk_manager.py:26-27 | any side other than 'BUY' / 'SELL' is allowed |
| RiskManager.BuyMonotoneInValue | evolutium_project/core_logic/risk_manager.py:10-11 | an allowed BUY stays allowed at any smaller trade value |
| RiskManager.BuyMonotoneInBalance | evolutium_project/core_logic/risk_manager.py:10-11 | an allowed BUY stays allowed with any larger balance |
| RiskManager.AllowedBuyIsFunded | evolutium_project/core_logic/risk_manager.py:9-13 | with a non-negative balance, an allowed BUY never costs more than the balance |
| Models.FirstIndex | evolutium_project/trading_app/views.py:123 | `filter(ticker).first()`: None iff no position has the ticker; otherwise the index of the earliest position with it |
| Models.HasPosition | evolutium_project/core_logic/risk_manager.py:15-22 | `any(pos.ticker == ticker ...)`: some open position has the ticker; stated by HasPositionIffCount and FirstIndex |
| Models.CountPositions | evolutium_project/core_logic/risk_manager.py:15 | the number of open positions in a ticker; stated by CountConcat, HasPositionIffCount and RemoveAtCounts |
| Models.TradeValue | evolutium_project/trading_app/views.py:112-125 | `price * quantity`, the cash value of a fill; stated by BuyAccepted and SellAccepted |
| Models.RemoveAt | evolutium_project/trading_app/views.py:128 | `position_to_sell.delete()`: the positions with the one at the given index removed, the rest in order; stated by RemoveAtCounts and SellAccepted |
| Ledger.TradeStep | evolutium_project/trading_app/views.py:111-132 | the effect of execute_trade_view on balance, positions and history, with its outcome message; stated by the Buy*/Sell*/UnknownActionIgnored lemmas |
| Ledger.BalanceStep | evolutium_project/trading_app/views.py:141-146 | the effect of update_balance_view; stated by AdjustmentAppliedIff |
| Ledger.BuyAccepted | evolutium_project/trading_app/views.py:111-117 | a covered BUY debits exactly price × quantity, leaves the balance non-negative, appends Position(ticker, qty, price) and one BUY record |
| Ledger.BuyRefused | evolutium_project/trading_app/views.py:111-120 | a BUY the balance cannot cover leaves balance, positions and history unchanged |
| Ledger.RepeatBuyAddsPosition | evolutium_project/trading_app/views.py:115 | a BUY of a ticker already held raises its number of positions by one |
| Ledger.SellAccepted | evolutium_project/trading_app/views.py:122-130 | a SELL of a held ticker credits price × requested quantity, removes exactly the first matching position, keeps the rest in order, appends one SELL record |
| Ledger.SellRemovesOnePosition | evolutium_project/trading_app/views.py:123-128 | a SELL lowers the sold ticker's position count by one and leaves every other ticker's count unchanged |
| Ledger.SellLiquidatesOnlySinglePosition | evolutium_project/trading_app/views.py:123-128 | after a SELL the ticker is no longer held iff it was held exactly once |
| Ledger.SellRefused | evolutium_project/trading_app/views.py:122-132 | a SELL of a ticker not held changes nothing and reports "position not found" |
| Ledger.UnknownActionIgnored | evolutium_project/trading_app/views.py:111-133 | an action other than BUY / SELL changes nothing |
| Ledger.AdjustmentAppliedIff | evolutium_project/trading_app/views.py:141-146 | an adjustment is applied iff balance + amount >= 0; a refused one changes nothing; an applied one leaves a non-negative balance |
| Ledger.BalanceStaysNonNegative | evolutium_project/trading_app/views.py:111-146 | from a non-negative balance, any sequence of trades and adjustments in which no SELL credits a negative amount keeps the balance non-negative |
| Ledger.NegativeSellOverdraws | evolutium_project/trading_app/views.py:103-128 | a SELL of quantity -10 @ 100 against a held position takes balance 0 to -1000 |
| Ledger.ServeAppendsAtMostOne | evolutium_project/trading_app/views.py:111-132 | one request appends at most one history record, and a trade moves the balance by exactly that record's cash flow |
| Ledger.HistoryAccountsForBalance | evolutium_project/trading_app/views.py:111-132 | history is append-only; after trades only, the balance equals the opening balance plus the net cash flow of the records appended |
| Ledger.CorrectedChartMatchesLedger | evolutium_project/trading_app/views.py:180-206 | the corrected chart replay over the trades served ends at the balance the ledger holds |
| Ledger.TallyTrades | evolutium_project/trading_app/views.py:156-173 | the KPI loop computes exactly the FIFO fold `Kpi` of the history |
| Ledger.BalanceChart | evolutium_project/trading_app/views.py:180-206 | the chart loop yields the estimated starting point followed by the running balance after each trade |
| Ledger.Portfolio.constructor | evolutium_project/trading_app/views.py:31 | a new portfolio has the initial balance, no positions and no history |
| Ledger.Portfolio.ExecuteTrade | evolutium_project/trading_app/views.py:98-134 | the in-place update and its outcome are exactly `TradeStep` of the old state |
| Ledger.Portfolio.UpdateBalance | evolutium_project/trading_app/views.py:137-148 | the in-place update and its outcome are exactly `BalanceStep` of the old state; an applied adjustment leaves a non-negative balance |
| Ledger.Portfolio.Report | evolutium_project/trading_app/views.py:151-215 | total/winning trades and P/L are the FIFO fold; winning <= total <= #BUY and total <= #SELL; win rate in [0,100]; chart as report_view builds it |
| Ledger.RoundTripExample | evolutium_project/trading_app/views.py:111-175 | BUY 10 @ 100 then SELL 10 @ 110 leaves balance +100, no positions, one winning trade with P/L 100 |
| ReportKpis.KpiStep | evolutium_project/trading_app/views.py:162-173 | one iteration of the KPI loop: a BUY joins its ticker's open list, a SELL pops the oldest open BUY and scores it |
| ReportKpis.MatchPl | evolutium_project/trading_app/views.py:170 | `(sell.price - buy.price) * sell.quantity`, the P/L of one FIFO match; stated by SellClosesOldestBuy |
| ReportKpis.Kpi | evolutium_project/trading_app/views.py:161-173 | the KPI loop as a left fold of KpiStep over the history; stated by the FIFO lemmas below |
| ReportKpis.PositionsValue | evolutium_project/trading_app/views.py:184 | the sum of quantity × buy price over the open positions |
| ReportKpis.CashFlow | evolutium_project/trading_app/views.py:197-201 | a BUY lowers the running balance by price × quantity and any other side raises it; stated by ReplayAt and ServeAppendsAtMostOne |
| ReportKpis.Replay | evolutium_project/trading_app/views.py:196-206 | the running balance after each trade, as the chart loop appends it; stated by ReplayAt |
| ReportKpis.Chart | evolutium_project/trading_app/views.py:180-206 | the estimated starting point followed by the replay; stated by ChartLastPointAsWritten and ChartCounterexample |
| ReportKpis.WinRate | evolutium_project/trading_app/views.py:175 | 0 when there are no matched trades; in [0,100] when winning <= total; 100 when every trade won |
| ReportKpis.CountersBounded | evolutium_project/trading_app/views.py:161-173 | winning_trades <= total_trades <= number of SELL records |
| ReportKpis.EveryBuyMatchedOrOpen | evolutium_project/trading_app/views.py:161-169 | every BUY record is either matched by a SELL or still in the open FIFO lists: total + open == #BUY |
| ReportKpis.MatchedAtMostBuys | evolutium_project/trading_app/views.py:161-173 | winning_trades <= total_trades <= number of BUY records |
| ReportKpis.OpenBuysAreOldestUnmatched | evolutium_project/trading_app/views.py:161-169 | the open list of a ticker is its BUY records in order with the first MatchedOf(h, ticker) of them removed (FIFO) |
| ReportKpis.SellClosesOldestBuy | evolutium_project/trading_app/views.py:166-173 | a SELL with an open BUY closes the oldest unmatched BUY of its ticker, adds its profit to P/L, and counts a win iff that profit is positive |
| ReportKpis.UnmatchedSellSkipped | evolutium_project/trading_app/views.py:166-167 | a SELL with no open BUY of its ticker changes no KPI |
| ReportKpis.ReplayAt | evolutium_project/trading_app/views.py:196-206 | the i-th replayed point is the start balance plus the net cash flow of the first i+1 trades |
| ReportKpis.ChartLastPointAsWritten | evolutium_project/trading_app/views.py:180-206 | as written, the chart's last point is the current balance plus the whole history's net flow, not the current balance |
| ReportKpis.ChartCounterexample | evolutium_project/trading_app/views.py:180-206 | balance 9000 after BUY 10 @ 100 charts [10000, 8000] |
| ReportKpis.ReplayToBalanceEndsAtBalance | evolutium_project/trading_app/views.py:182-206 | the backward-anchored replay has one point per trade and ends at the current balance |
| PyStrings.IsSpace | evolutium_project/core_logic/synthesis_engine.py:174 | the characters CPython's `str.strip()` treats as whitespace |
| PyStrings.Strip | evolutium_project/core_logic/synthesis_engine.py:177 | `str.strip()`; stated by StripIsTrimmedSlice, StripEmptyIffBlank and StripIdempotent |
| PyStrings.Replace | evolutium_project/core_logic/synthesis_engine.py:177 | `str.replace(pat, rep)`: leftmost, non-overlapping replacement; stated by ReplaceAbsent and ReplaceRemovesFence |
| PyStrings.StripLeft | evolutium_project/core_logic/synthesis_engine.py:177 | `lstrip()`: a suffix of its input, only whitespace removed, not starting with whitespace |
| PyStrings.StripRight | evolutium_project/core_logic/synthesis_engine.py:177 | `rstrip()`: a prefix of its input, only whitespace removed, not ending with whitespace |
| PyStrings.StripIsTrimmedSlice | evolutium_project/core_logic/synthesis_engine.py:177 | `strip()` gives a slice of its input with no whitespace at either end |
| PyStrings.StripEmptyIffBlank | evolutium_project/core_logic/synthesis_engine.py:174 | `s.strip()` is empty iff s is all whitespace |
| PyStrings.StripIdempotent | evolutium_project/core_logic/synthesis_engine.py:177 | stripping twice is stripping once |
| PyStrings.ReplaceAbsent | evolutium_project/core_logic/synthesis_engine.py:177 | `replace` leaves a string without the pattern unchanged |
| PyStrings.LeadingTicksOfReplace | evolutium_project/core_logic/synthesis_engine.py:177 | removing every "```" leaves the leading run of backticks modulo 3 |
| PyStrings.ReplaceRemovesFence | evolutium_project/core_logic/synthesis_engine.py:177 | after `replace("```", "")` no "```" is left (leftmost, non-overlapping removal never joins backticks into a new fence) |
| PyStrings.JsonFenceHasFence | evolutium_project/core_logic/synthesis_engine.py:177 | a string without "```" has no "```json" |
| SynthesisEngine.Clean | evolutium_project/core_logic/synthesis_engine.py:177 | strip, remove every "```json", then every "```", strip again; stated by CleanIsUnfencedAndTrimmed and CleanIdempotent |
| SynthesisEngine.ParseResponse | evolutium_project/core_logic/synthesis_engine.py:172-181 | the "Resposta vazia…" branch is taken iff the reply is blank; otherwise the "Falha ao processar…" branch iff the decoder fails on the cleaned text, else the decoded value is returned as it is (which may itself look like an ERROR dictionary, see DecodedReplyCanMimicError) |
| SynthesisEngine.CleanIsUnfencedAndTrimmed | evolutium_project/core_logic/synthesis_engine.py:177 | the cleaned text has no "```" and no whitespace at either end |
| SynthesisEngine.CleanIdempotent | evolutium_project/core_logic/synthesis_engine.py:177 | cleaning a cleaned text changes nothing |
| SynthesisEngine.ParseIgnoresFencedTexts | evolutium_project/core_logic/synthesis_engine.py:177-178 | the result depends on the decoder only through texts without "```" |
| SynthesisEngine.Truthy | evolutium_project/core_logic/synthesis_engine.py:64-91 | Python truthiness of an indicator: present and non-zero; stated by the *Shown lemmas and BacktestZeroCloseUnavailable |
| SynthesisEngine.TrendOf | evolutium_project/core_logic/synthesis_engine.py:70 | "alta" iff the value is strictly above the reference, "baixa" otherwise |
| SynthesisEngine.RsiZoneOf | evolutium_project/core_logic/synthesis_engine.py:78-80 | overbought iff RSI > 70, oversold iff RSI < 30, neutral iff 30 <= RSI <= 70 |
| SynthesisEngine.RsiZoneMonotone | evolutium_project/core_logic/synthesis_engine.py:78-80 | raising the RSI keeps an overbought reading overbought; lowering it keeps an oversold reading oversold |
| SynthesisEngine.BandOf | evolutium_project/core_logic/synthesis_engine.py:85-87 | above iff price > upper; below iff not above and price < lower; inside iff lower <= price <= upper |
| SynthesisEngine.OrderedBandsPartition | evolutium_project/core_logic/synthesis_engine.py:85-87 | with lower <= upper, "below" is exactly price < lower |
| SynthesisEngine.TechnicalSummary | evolutium_project/core_logic/synthesis_engine.py:63-95 | the technical-analysis text: the two fallback texts or the present signal lines in source order; stated by InsufficientIff, PriceUnavailableIff and the *Shown lemmas |
| SynthesisEngine.FullTechnicalAnalysis | evolutium_project/core_logic/synthesis_engine.py:63-95 | the item-by-item accumulation yields exactly `TechnicalSummary` |
| SynthesisEngine.InsufficientIff | evolutium_project/core_logic/synthesis_engine.py:64-94 | "Dados insuficientes" iff the technicals are empty, or the price is truthy and no indicator line is present |
| SynthesisEngine.PriceUnavailableIff | evolutium_project/core_logic/synthesis_engine.py:64-66 | "Preço atual indisponível" iff technicals are non-empty and the price is missing or 0 |
| SynthesisEngine.ShortTrendShown | evolutium_project/core_logic/synthesis_engine.py:68-71 | a 21-day trend line is shown iff SMA_21 is truthy, and it reads up iff price > SMA_21 |
| SynthesisEngine.MediumTrendShown | evolutium_project/core_logic/synthesis_engine.py:72-75 | a 50-day trend line is shown iff SMA_50 is truthy, and it reads up iff price > SMA_50 |
| SynthesisEngine.MomentumShown | evolutium_project/core_logic/synthesis_engine.py:76-81 | an RSI line is shown iff RSI_14 is truthy, carrying that RSI and its zone |
| SynthesisEngine.VolatilityShown | evolutium_project/core_logic/synthesis_engine.py:82-88 | a Bollinger line is shown iff both bands are truthy, with the price's zone against them |
| SynthesisEngine.ConvergenceShown | evolutium_project/core_logic/synthesis_engine.py:89-93 | a MACD line is shown iff MACD and its signal line are truthy, and it reads up iff MACD > signal |
| SynthesisEngine.BacktestZeroCloseUnavailable | evolutium_project/core_logic/synthesis_engine.py:64-66 | a backtest snapshot whose Close is 0 exists and reads "Preço atual indisponível", since its technicals are never empty |
| SynthesisEngine.LiveShortHistoryInsufficient | evolutium_project/core_logic/synthesis_engine.py:64 | a live snapshot from 50 rows or fewer reads "Dados insuficientes" |
| SynthesisEngine.HistoryWindow | evolutium_project/core_logic/synthesis_engine.py:111-112 | the placeholder iff the history is empty; otherwise the last min(5, n) trades in their original order |
| SynthesisEngine.HistoryWindowSlides | evolutium_project/core_logic/synthesis_engine.py:141-142 | a new trade enters the window last; with five or more earlier trades the oldest shown one drops out |
| SynthesisEngine.IbovChange | evolutium_project/core_logic/synthesis_engine.py:114 | `market_context.get('ibov_change', 'N/A')`, shared by all three prompts (lines 114, 144 and 196) |
| SynthesisEngine.PriceOrZero | evolutium_project/core_logic/synthesis_engine.py:136 | `fundamentals.get('Preço Atual', 0)`: the price, or 0 when the key is missing; stated by MissingPriceIsTotalLoss |
| SynthesisEngine.ProfitLoss | evolutium_project/core_logic/synthesis_engine.py:136-138 | 0 when buy price <= 0 or the price is not a number; otherwise P/L × buy price = price − buy price |
| SynthesisEngine.ProfitLossSign | evolutium_project/core_logic/synthesis_engine.py:138 | with a positive buy price, P/L > 0 iff price > buy price, P/L = 0 iff they are equal, and P/L >= −1 for non-negative prices |
| SynthesisEngine.MissingPriceIsTotalLoss | evolutium_project/core_logic/synthesis_engine.py:136-138 | a missing "Preço Atual" key defaults to 0, so P/L is −100% |
| SynthesisEngine.CandidateBlocks | evolutium_project/core_logic/synthesis_engine.py:98-110 | one block per candidate, in order, each with the candidate's ticker, price, P/L, ROE, technical summary and news |
| SynthesisEngine.BacktestBlocks | evolutium_project/core_logic/synthesis_engine.py:184-194 | one block per candidate, in order, each with ticker, price and technical summary |
| SynthesisEngine.BuyPromptFor | evolutium_project/core_logic/synthesis_engine.py:97-132 | the buy prompt's content: market context, HistoryWindow of the trades and one CandidateBlocks entry per candidate; stated by CandidateBlocks and HistoryWindow |
| SynthesisEngine.SellPromptFor | evolutium_project/core_logic/synthesis_engine.py:134-170 | the sell prompt's content: market context, HistoryWindow, the position's buy price, PriceOrZero, ProfitLoss and TechnicalSummary; stated by ProfitLoss and HistoryWindow |
| SynthesisEngine.BacktestBuyPromptFor | evolutium_project/core_logic/synthesis_engine.py:183-211 | the backtest prompt's content: market context and one BacktestBlocks entry per candidate; stated by BacktestBlocks |
| SynthesisEngine.BuildBuyPrompt | evolutium_project/core_logic/synthesis_engine.py:97-132 | the loop builds the buy prompt: market context, history window and the candidate blocks |
| SynthesisEngine.BuildSellPrompt | evolutium_project/core_logic/synthesis_engine.py:134-170 | the sell prompt carries the guarded P/L, the defaulted price, the history window and the technical summary |
| SynthesisEngine.BuildBacktestBuyPrompt | evolutium_project/core_logic/synthesis_engine.py:183-211 | the loop builds the backtest prompt: market context and the technical-only blocks |
| SynthesisEngine.Engine.constructor | evolutium_project/core_logic/synthesis_engine.py:9-33 | the engine holds the model it was given |
| SynthesisEngine.Engine.DecideBestInvestment | evolutium_project/core_logic/synthesis_engine.py:49-54 | "Modelo não inicializado." ERROR when there is no model; otherwise the parsed reply to the buy prompt |
| SynthesisEngine.Engine.ShouldSellPosition | evolutium_project/core_logic/synthesis_engine.py:56-61 | "Modelo não inicializado." ERROR when there is no model; otherwise the parsed reply to the sell prompt |
| SynthesisEngine.Engine.DecideBestInvestmentBacktest | evolutium_project/core_logic/synthesis_engine.py:213-218 | "Modelo não inicializado." ERROR when there is no model; otherwise the parsed reply to the backtest prompt |
| SynthesisEngine.DecodedReplyCanMimicError | evolutium_project/core_logic/synthesis_engine.py:50-51 | a reply that decodes to an error's dictionary comes back as that same dictionary, so a caller cannot tell it from the engine's own error |
| SynthesisEngine.GuardDictReplyExample | evolutium_project/core_logic/synthesis_engine.py:50 | the reply "x", decoded to the "Modelo não inicializado." dictionary, reaches the caller as exactly the guard's dictionary |
| DataProvider.Titles | evolutium_project/core_logic/data_provider.py:45 | no more titles than items; each result is some item's title, and every titled item's title is in the result |
| DataProvider.TitlesOfOne | evolutium_project/core_logic/data_provider.py:45 | one item gives its title, or nothing when it has no title |
| DataProvider.TitlesConcat | evolutium_project/core_logic/data_provider.py:45 | the filter keeps order: the titles of a + b are the titles of a followed by those of b |
| DataProvider.RecentNews | evolutium_project/core_logic/data_provider.py:45 | the single "Nenhuma notícia…" placeholder when there is no news; otherwise at most 5 titles, all from the first five items, and the title of every titled item among the first five |
| DataProvider.RecentNewsKeepsTitledItems | evolutium_project/core_logic/data_provider.py:45 | when the first five items all have titles, recent news is exactly those titles in order |
| DataProvider.UntitledNewsGivesNoTitles | evolutium_project/core_logic/data_provider.py:45 | news with no titles gives an empty list, not the placeholder |
| DataProvider.Get | evolutium_project/core_logic/data_provider.py:116-121 | `dict.get(key)`: the value, or None for a missing key |
| DataProvider.Indicators | evolutium_project/core_logic/data_provider.py:116-121 | the eight indicator columns of a row, each by `get`; used by both providers |
| DataProvider.LiveMarketData | evolutium_project/core_logic/data_provider.py:9-50 | None iff info is empty or lacks currentPrice; the price is info's currentPrice; technicals empty iff 50 rows or fewer, and exactly the last row's indicators with more than 50; news is `RecentNews` |
| DataProvider.MarketDataAt | evolutium_project/core_logic/data_provider.py:105-127 | a snapshot exists iff the ticker is loaded, the cursor is set and its row exists with a Close; the snapshot holds the ticker, that row's Close as price, that row's indicators and the backtest news placeholder |
| DataProvider.NoLookahead | evolutium_project/core_logic/data_provider.py:105-126 | deleting every row after the cursor does not change the snapshot (the lookup reads no later row; whether the stored indicator values used later rows is not covered) |
| DataProvider.NoCarryForward | evolutium_project/core_logic/data_provider.py:109-112 | a ticker with no row at the cursor has no snapshot, whatever earlier rows it has |
| DataProvider.SortDates | evolutium_project/core_logic/data_provider.py:103 | `sort_values()`: strictly increasing and holding exactly the given dates |
| DataProvider.PreloadAllData | evolutium_project/core_logic/data_provider.py:64-92 | a ticker is kept iff it was requested and its download returned rows; the kept series is that download |
| DataProvider.BacktestDataProvider.constructor | evolutium_project/core_logic/data_provider.py:57-62 | the history is the preload of the tickers and the cursor starts unset |
| DataProvider.BacktestDataProvider.SetCurrentDate | evolutium_project/core_logic/data_provider.py:94-95 | only the cursor changes |
| DataProvider.BacktestDataProvider.GetTradingDays | evolutium_project/core_logic/data_provider.py:97-103 | empty when nothing was loaded; strictly increasing; a date is in it iff some loaded ticker has a row on it |
| DataProvider.BacktestDataProvider.GetMarketData | evolutium_project/core_logic/data_provider.py:105-127 | exactly `MarketDataAt` at the cursor: a snapshot iff the ticker is loaded, the cursor is set and its row has a Close; then the ticker, the cursor row's Close as price, that row's indicators and the backtest news placeholder |

## Left out

- Django plumbing is not modelled: authentication, `render` / `redirect`, `messages`, form handling, and the job polling in `check_analysis_result_view`. ORM `create` / `delete` / `save` become sequence updates, and the order of the history sequence stands for `order_by('timestamp')`.
- Request parsing is not modelled: the `int(quantity)` and `Decimal(price)` conversions in execute_trade_view with its error message, and the `Decimal(amount)` conversion in update_balance_view, whose `InvalidOperation` is not caught. The model starts from parsed values.
- Ledger.Serve / Run: requests are served one at a time, each as one atomic step. The views take no lock and open no transaction (no `select_for_update`, no `transaction.atomic`), and a BUY writes the balance, the Position and the TradeHistory separately. Concurrent requests can therefore both pass the balance test and lose a balance update. That is not modelled, so HistoryAccountsForBalance and ServeAppendsAtMostOne hold only for serialized requests.
- Decimal precision is not modelled: `DecimalField(max_digits, decimal_places)` rounding and overflow. Money is an unbounded `real`.
- Chart labels and `float()` conversions in `report_view` are not modelled, and timestamps are not stored.
- Indicator values (SMA, RSI, Bollinger bands, MACD) are not computed. They are computed by `pandas_ta`, a foreign floating-point library, so rows simply carry these columns as `Option<real>`. NaN, which Python counts as truthy, is modelled as a missing value.
- Network and I/O are not modelled: `yfinance` calls, the Gemini client setup, `generate_content` and logging. The downloader, the decoder and the model completion are parameters. The backtest date range is folded into the downloader.
- Live-provider failure handling is not modelled: the exceptions caught in `DataProvider.get_market_data` and the MultiIndex column flattening. The metadata, the history length, the last row and the news are inputs to `LiveMarketData`.
- The text-valued fundamentals "Setor" and "Resumo" are absent from the live snapshot's numeric fundamentals map.
- Prompt formatting is not modelled: the prompt wording, `_format_value` and the `" | ".join` of news. Prompts are structured values holding what they display.
- SynthesisEngine.ParseResponse: `Reply` keeps an engine-made error apart from a decoded reply with the same content. The source returns a plain dictionary on every path, so its callers cannot make that distinction (see DecodedReplyCanMimicError).
- `json.loads` is an abstract decoder, so its RFC 8259 grammar is not modelled.
- SynthesisEngine.Engine.constructor: it takes the optional model as given. The API-key lookup is I/O, and the source raises rather than leaving the model unset. The None state stands for an engine whose model was never configured.
- RISK_PERCENTAGE_PER_TRADE: it is a parameter, because config.py is not part of this model.
- Files outside the core are not modelled: api_client.py, tasks.py, forms.py, both urls.py files and the JavaScript UI.
- Ledger.Portfolio.Report: it models the chart as written. The corrected replay is stated separately (see Findings), so the report does not use it.

## Findings

| source | as written | input that shows it | evidently intended | confidence | as-written member | corrected member |
|---|---|---|---|---|---|---|
| evolutium_project/trading_app/views.py:180-206 | the chart replays every trade forward starting from the current balance, so the last point is balance + net flow of the whole history | balance 9000 after one BUY of 10 @ 100, no P/L: chart [10000, 8000]; the portfolio never held 8000 | replay backwards from the current balance, as the comment at line 182 says, so the last point is the current balance | medium, not executed | ReportKpis.ChartCounterexample | ReportKpis.ReplayToBalanceEndsAtBalance |
| evolutium_project/trading_app/views.py:103-128 | `int(quantity)` is never checked for sign, so a SELL of a negative quantity debits the balance | balance 0, one PETR4 position, SELL -10 @ 100: balance -1000 | trades never take the balance below 0, as update_balance_view insists at views.py:141-146 | medium, not executed | Ledger.NegativeSellOverdraws | Ledger.BalanceStaysNonNegative |
