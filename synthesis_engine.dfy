/**
 * The decision side of core_logic/synthesis_engine.py: cleaning and decoding
 * the generative model's reply, the technical-signal summary shown for each
 * candidate, the trade-history window and profit/loss figure put into the
 * prompts, and the "model not initialised" guard of every entry point.
 *
 * Prompts are kept as structured values: their wording and the number
 * formatting of `_format_value` are not modelled.
 */
module SynthesisEngine {
  import opened Wrappers
  import opened PyStrings
  import opened Models
  import DataProvider

  // ---------------------------------------------------------------------------
  // Replies

  /** A JSON value (RFC 8259) as `json.loads` returns it. */
  datatype Json =
    | JNull
    | JBool(b: bool)
    | JNumber(n: real)
    | JString(s: string)
    | JArray(items: seq<Json>)
    | JObject(members: seq<(string, Json)>)

  /**
   * What a decision entry point returns: the `{"decision": "ERROR", ...}`
   * dictionary with its rationale, or whatever the reply decoded to.
   */
  datatype Reply = Error(rationale: string) | Decoded(value: Json)

  const EmptyReply := "Resposta vazia ou bloqueada pela API."
  const MalformedReply := "Falha ao processar o formato JSON da resposta."
  const ModelNotInitialised := "Modelo não inicializado."

  /** The text handed to the decoder: stripped, every "```json" and then every "```" removed, stripped again. */
  function Clean(text: string): string
  {
    Strip(Replace(Replace(Strip(text), "```json", ""), Fence, ""))
  }

  /**
   * `_parse_response`: a reply that is empty or only whitespace is an error;
   * otherwise the cleaned text is decoded, a decoding failure is an error and
   * a decoded value comes back as it is.
   */
  function ParseResponse(text: string, decode: string -> Option<Json>): (r: Reply)
    ensures r == Error(EmptyReply) <==> IsBlank(text)
    ensures !IsBlank(text) ==> (r == Error(MalformedReply) <==> decode(Clean(text)).None?)
    ensures !IsBlank(text) && decode(Clean(text)).Some? ==> r == Decoded(decode(Clean(text)).value)
  {
    StripEmptyIffBlank(text);
    if text == [] || Strip(text) == [] then Error(EmptyReply)
    else
      match decode(Clean(text))
      case None => Error(MalformedReply)
      case Some(v) => Decoded(v)
  }

  /** The cleaned text contains no code fence and has no whitespace at either end. */
  lemma CleanIsUnfencedAndTrimmed(text: string)
    ensures !Occurs(Fence, Clean(text))
    ensures Clean(text) != [] ==> !IsSpace(Clean(text)[0]) && !IsSpace(Clean(text)[|Clean(text)| - 1])
  {
    var u := Replace(Replace(Strip(text), "```json", ""), Fence, "");
    ReplaceRemovesFence(Replace(Strip(text), "```json", ""));
    StripIsTrimmedSlice(u);
    var a, b :| 0 <= a <= b <= |u| && Strip(u) == u[a..b];
    NotOccursInSlice(Fence, u, a, b);
  }

  /** Cleaning is idempotent: a cleaned text is its own cleaning. */
  lemma CleanIdempotent(text: string)
    ensures Clean(Clean(text)) == Clean(text)
  {
    var c := Clean(text);
    var u := Replace(Replace(Strip(text), "```json", ""), Fence, "");
    CleanIsUnfencedAndTrimmed(text);
    StripIdempotent(u);
    assert Strip(c) == c;
    JsonFenceHasFence(c);
    ReplaceAbsent(c, "```json", "");
    ReplaceAbsent(c, Fence, "");
  }

  /**
   * The decoder only ever sees unfenced text: two decoders that agree on
   * every text without a "```" give every reply the same meaning.
   */
  lemma ParseIgnoresFencedTexts(text: string, d1: string -> Option<Json>, d2: string -> Option<Json>)
    requires forall s :: !Occurs(Fence, s) ==> d1(s) == d2(s)
    ensures ParseResponse(text, d1) == ParseResponse(text, d2)
  {
    CleanIsUnfencedAndTrimmed(text);
  }

  // ---------------------------------------------------------------------------
  // Technical-signal summary

  /** Python truthiness of an optional number: None and 0 count as absent. */
  predicate Truthy(v: Option<real>)
  {
    v.Some? && v.value != 0.0
  }

  /** "alta" / "baixa". */
  datatype Trend = Up | Down

  datatype RsiZone = Overbought | Oversold | Neutral

  datatype BandZone = AboveUpper | BelowLower | InsideBands

  /** One line of the technical analysis. */
  datatype Signal =
    | ShortTrend(trend: Trend)            // price against the 21-day average
    | MediumTrend(trend: Trend)           // price against the 50-day average
    | Momentum(rsi: real, zone: RsiZone)
    | Volatility(band: BandZone)          // price against the Bollinger bands
    | Convergence(trend: Trend)           // MACD line against its signal line

  /** The text `_get_full_technical_analysis_text` returns. */
  datatype TechnicalText = Insufficient | PriceUnavailable | Analysis(items: seq<Signal>)

  /** The trend of `value` against `reference`: up only when strictly above. */
  function TrendOf(value: real, reference: real): (t: Trend)
    ensures t == Up <==> value > reference
    ensures t == Down <==> value <= reference
  {
    if value > reference then Up else Down
  }

  function RsiZoneOf(rsi: real): (z: RsiZone)
    ensures z == Overbought <==> rsi > 70.0
    ensures z == Oversold <==> rsi < 30.0
    ensures z == Neutral <==> 30.0 <= rsi <= 70.0
  {
    if rsi > 70.0 then Overbought
    else if rsi < 30.0 then Oversold
    else Neutral
  }

  /** The upper band is tested first, so a price above it is never reported as below the lower band. */
  function BandOf(price: real, upper: real, lower: real): (z: BandZone)
    ensures z == AboveUpper <==> price > upper
    ensures z == BelowLower <==> price <= upper && price < lower
    ensures z == InsideBands <==> lower <= price <= upper
  {
    if price > upper then AboveUpper
    else if price < lower then BelowLower
    else InsideBands
  }

  /** The RSI zones are ordered: raising the RSI never moves it from overbought back, nor to oversold from above. */
  lemma RsiZoneMonotone(low: real, high: real)
    requires low <= high
    ensures RsiZoneOf(low) == Overbought ==> RsiZoneOf(high) == Overbought
    ensures RsiZoneOf(high) == Oversold ==> RsiZoneOf(low) == Oversold
  {
  }

  /** With ordered bands (lower <= upper) the three zones are exactly above, below and between. */
  lemma OrderedBandsPartition(price: real, upper: real, lower: real)
    requires lower <= upper
    ensures BandOf(price, upper, lower) == BelowLower <==> price < lower
  {
  }

  /** The short-term trend line: shown when the 21-day average is truthy. */
  function ShortTrendLine(price: real, technicals: map<string, Option<real>>): seq<Signal>
  {
    var sma21 := DataProvider.Get(technicals, "SMA_21");
    if Truthy(sma21) then [ShortTrend(TrendOf(price, sma21.value))] else []
  }

  /** The medium-term trend line: shown when the 50-day average is truthy. */
  function MediumTrendLine(price: real, technicals: map<string, Option<real>>): seq<Signal>
  {
    var sma50 := DataProvider.Get(technicals, "SMA_50");
    if Truthy(sma50) then [MediumTrend(TrendOf(price, sma50.value))] else []
  }

  /** The momentum line: shown when the RSI is truthy. */
  function MomentumLine(technicals: map<string, Option<real>>): seq<Signal>
  {
    var rsi := DataProvider.Get(technicals, "RSI_14");
    if Truthy(rsi) then [Momentum(rsi.value, RsiZoneOf(rsi.value))] else []
  }

  /** The Bollinger line: shown when both bands are truthy. */
  function VolatilityLine(price: real, technicals: map<string, Option<real>>): seq<Signal>
  {
    var bbu := DataProvider.Get(technicals, "BBU_20_2.0");
    var bbl := DataProvider.Get(technicals, "BBL_20_2.0");
    if Truthy(bbu) && Truthy(bbl) then [Volatility(BandOf(price, bbu.value, bbl.value))] else []
  }

  /** The MACD line: shown when the MACD and its signal line are truthy. */
  function ConvergenceLine(technicals: map<string, Option<real>>): seq<Signal>
  {
    var macd := DataProvider.Get(technicals, "MACD_12_26_9");
    var macdSignal := DataProvider.Get(technicals, "MACDs_12_26_9");
    if Truthy(macd) && Truthy(macdSignal) then [Convergence(TrendOf(macd.value, macdSignal.value))] else []
  }

  /** The analysis lines for a priced candidate, in the order the source emits them. */
  function SignalsAt(price: real, technicals: map<string, Option<real>>): seq<Signal>
  {
    ShortTrendLine(price, technicals) + MediumTrendLine(price, technicals) + MomentumLine(technicals)
    + VolatilityLine(price, technicals) + ConvergenceLine(technicals)
  }

  /** `_get_full_technical_analysis_text`, as a value. */
  function TechnicalSummary(fundamentals: map<string, Option<real>>, technicals: map<string, Option<real>>): TechnicalText
  {
    if technicals == map[] then Insufficient
    else
      var currentPrice := DataProvider.Get(fundamentals, DataProvider.PriceKey);
      if !Truthy(currentPrice) then PriceUnavailable
      else
        var items := SignalsAt(currentPrice.value, technicals);
        if items == [] then Insufficient else Analysis(items)
  }

  /** `_get_full_technical_analysis_text`: collects the analysis lines one indicator at a time. */
  method FullTechnicalAnalysis(fundamentals: map<string, Option<real>>, technicals: map<string, Option<real>>)
    returns (r: TechnicalText)
    ensures r == TechnicalSummary(fundamentals, technicals)
  {
    if technicals == map[] {
      return Insufficient;
    }
    var currentPrice := DataProvider.Get(fundamentals, DataProvider.PriceKey);
    if !Truthy(currentPrice) {
      return PriceUnavailable;
    }
    var price := currentPrice.value;
    var analysisItems: seq<Signal> := [];
    var sma21 := DataProvider.Get(technicals, "SMA_21");
    if Truthy(sma21) {
      analysisItems := analysisItems + [ShortTrend(TrendOf(price, sma21.value))];
    }
    assert analysisItems == ShortTrendLine(price, technicals);
    var sma50 := DataProvider.Get(technicals, "SMA_50");
    if Truthy(sma50) {
      analysisItems := analysisItems + [MediumTrend(TrendOf(price, sma50.value))];
    }
    assert analysisItems == ShortTrendLine(price, technicals) + MediumTrendLine(price, technicals);
    var rsi := DataProvider.Get(technicals, "RSI_14");
    if Truthy(rsi) {
      analysisItems := analysisItems + [Momentum(rsi.value, RsiZoneOf(rsi.value))];
    }
    ghost var upToMomentum := ShortTrendLine(price, technicals) + MediumTrendLine(price, technicals)
                              + MomentumLine(technicals);
    assert analysisItems == upToMomentum;
    var bbu := DataProvider.Get(technicals, "BBU_20_2.0");
    var bbl := DataProvider.Get(technicals, "BBL_20_2.0");
    if Truthy(bbu) && Truthy(bbl) {
      analysisItems := analysisItems + [Volatility(BandOf(price, bbu.value, bbl.value))];
    }
    assert analysisItems == upToMomentum + VolatilityLine(price, technicals);
    var macdLine := DataProvider.Get(technicals, "MACD_12_26_9");
    var signalLine := DataProvider.Get(technicals, "MACDs_12_26_9");
    if Truthy(macdLine) && Truthy(signalLine) {
      analysisItems := analysisItems + [Convergence(TrendOf(macdLine.value, signalLine.value))];
    }
    if analysisItems == [] {
      return Insufficient;
    }
    return Analysis(analysisItems);
  }

  /** No indicator that the summary reads is present. */
  predicate NoSignalPresent(technicals: map<string, Option<real>>)
  {
    && !Truthy(DataProvider.Get(technicals, "SMA_21"))
    && !Truthy(DataProvider.Get(technicals, "SMA_50"))
    && !Truthy(DataProvider.Get(technicals, "RSI_14"))
    && !(Truthy(DataProvider.Get(technicals, "BBU_20_2.0")) && Truthy(DataProvider.Get(technicals, "BBL_20_2.0")))
    && !(Truthy(DataProvider.Get(technicals, "MACD_12_26_9")) && Truthy(DataProvider.Get(technicals, "MACDs_12_26_9")))
  }

  /** The lines a summary shows: none unless it is an analysis. */
  function Lines(t: TechnicalText): seq<Signal>
  {
    if t.Analysis? then t.items else []
  }

  /** For a priced candidate with technicals, the summary's lines are exactly the signals. */
  lemma SummaryLines(fundamentals: map<string, Option<real>>, technicals: map<string, Option<real>>)
    requires technicals != map[] && Truthy(DataProvider.Get(fundamentals, DataProvider.PriceKey))
    ensures Lines(TechnicalSummary(fundamentals, technicals))
      == SignalsAt(DataProvider.Get(fundamentals, DataProvider.PriceKey).value, technicals)
  {
  }

  /** A line is among the signals iff one of the five indicator lines shows it. */
  lemma InSignals(price: real, technicals: map<string, Option<real>>, x: Signal)
    ensures x in SignalsAt(price, technicals) <==>
      || x in ShortTrendLine(price, technicals) || x in MediumTrendLine(price, technicals)
      || x in MomentumLine(technicals) || x in VolatilityLine(price, technicals) || x in ConvergenceLine(technicals)
  {
  }

  /** "Dados insuficientes" exactly when there are no technicals, or the price is known but no indicator is. */
  lemma InsufficientIff(fundamentals: map<string, Option<real>>, technicals: map<string, Option<real>>)
    ensures TechnicalSummary(fundamentals, technicals) == Insufficient <==>
      technicals == map[] || (Truthy(DataProvider.Get(fundamentals, DataProvider.PriceKey)) && NoSignalPresent(technicals))
  {
  }

  /** "Preço atual indisponível" exactly when there are technicals but the price is absent or zero. */
  lemma PriceUnavailableIff(fundamentals: map<string, Option<real>>, technicals: map<string, Option<real>>)
    ensures TechnicalSummary(fundamentals, technicals) == PriceUnavailable <==>
      technicals != map[] && !Truthy(DataProvider.Get(fundamentals, DataProvider.PriceKey))
  {
  }

  /** A short-term trend line is shown iff the 21-day average is truthy, and it says up iff the price is above it. */
  lemma ShortTrendShown(fundamentals: map<string, Option<real>>, technicals: map<string, Option<real>>, t: Trend)
    requires technicals != map[] && Truthy(DataProvider.Get(fundamentals, DataProvider.PriceKey))
    ensures var sma := DataProvider.Get(technicals, "SMA_21");
      ShortTrend(t) in Lines(TechnicalSummary(fundamentals, technicals)) <==>
      Truthy(sma) && (t == Up <==> DataProvider.Get(fundamentals, DataProvider.PriceKey).value > sma.value)
  {
    var price := DataProvider.Get(fundamentals, DataProvider.PriceKey).value;
    SummaryLines(fundamentals, technicals);
    InSignals(price, technicals, ShortTrend(t));
  }

  /** A medium-term trend line is shown iff the 50-day average is truthy, and it says up iff the price is above it. */
  lemma MediumTrendShown(fundamentals: map<string, Option<real>>, technicals: map<string, Option<real>>, t: Trend)
    requires technicals != map[] && Truthy(DataProvider.Get(fundamentals, DataProvider.PriceKey))
    ensures var sma := DataProvider.Get(technicals, "SMA_50");
      MediumTrend(t) in Lines(TechnicalSummary(fundamentals, technicals)) <==>
      Truthy(sma) && (t == Up <==> DataProvider.Get(fundamentals, DataProvider.PriceKey).value > sma.value)
  {
    var price := DataProvider.Get(fundamentals, DataProvider.PriceKey).value;
    SummaryLines(fundamentals, technicals);
    InSignals(price, technicals, MediumTrend(t));
  }

  /** A momentum line is shown iff the RSI is truthy, with the zone of that RSI. */
  lemma MomentumShown(fundamentals: map<string, Option<real>>, technicals: map<string, Option<real>>, v: real, z: RsiZone)
    requires technicals != map[] && Truthy(DataProvider.Get(fundamentals, DataProvider.PriceKey))
    ensures Momentum(v, z) in Lines(TechnicalSummary(fundamentals, technicals)) <==>
      DataProvider.Get(technicals, "RSI_14") == Some(v) && v != 0.0 && z == RsiZoneOf(v)
  {
    var price := DataProvider.Get(fundamentals, DataProvider.PriceKey).value;
    SummaryLines(fundamentals, technicals);
    InSignals(price, technicals, Momentum(v, z));
  }

  /** A Bollinger line is shown only when both bands are truthy, placing the price against them. */
  lemma VolatilityShown(fundamentals: map<string, Option<real>>, technicals: map<string, Option<real>>, z: BandZone)
    requires technicals != map[] && Truthy(DataProvider.Get(fundamentals, DataProvider.PriceKey))
    ensures var upper := DataProvider.Get(technicals, "BBU_20_2.0");
      var lower := DataProvider.Get(technicals, "BBL_20_2.0");
      Volatility(z) in Lines(TechnicalSummary(fundamentals, technicals)) <==>
      Truthy(upper) && Truthy(lower)
      && z == BandOf(DataProvider.Get(fundamentals, DataProvider.PriceKey).value, upper.value, lower.value)
  {
    var price := DataProvider.Get(fundamentals, DataProvider.PriceKey).value;
    SummaryLines(fundamentals, technicals);
    InSignals(price, technicals, Volatility(z));
  }

  /** A MACD line is shown only when the MACD and its signal line are truthy, and it says up iff MACD is above the signal. */
  lemma ConvergenceShown(fundamentals: map<string, Option<real>>, technicals: map<string, Option<real>>, t: Trend)
    requires technicals != map[] && Truthy(DataProvider.Get(fundamentals, DataProvider.PriceKey))
    ensures var macd := DataProvider.Get(technicals, "MACD_12_26_9");
      var macdSignal := DataProvider.Get(technicals, "MACDs_12_26_9");
      Convergence(t) in Lines(TechnicalSummary(fundamentals, technicals)) <==>
      Truthy(macd) && Truthy(macdSignal) && (t == Up <==> macd.value > macdSignal.value)
  {
    var price := DataProvider.Get(fundamentals, DataProvider.PriceKey).value;
    SummaryLines(fundamentals, technicals);
    InSignals(price, technicals, Convergence(t));
  }

  /** A backtest snapshot whose close is 0 always reads "Preço atual indisponível": its technicals are never empty. */
  lemma BacktestZeroCloseUnavailable(data: map<string, DataProvider.Series>, date: DataProvider.Date, ticker: string)
    requires ticker in data && date in data[ticker] && DataProvider.Get(data[ticker][date], "Close") == Some(0.0)
    ensures var s := DataProvider.MarketDataAt(data, Some(date), ticker);
      s.Some? && TechnicalSummary(s.value.fundamentals, s.value.technicals) == PriceUnavailable
  {
    var s := DataProvider.MarketDataAt(data, Some(date), ticker);
    assert "SMA_21" in s.value.technicals;
  }

  /** A live snapshot built from 50 daily rows or fewer has no technicals, so it reads "Dados insuficientes". */
  lemma LiveShortHistoryInsufficient(ticker: string, info: map<string, Option<real>>, historyLength: nat,
                                     lastRow: DataProvider.Row, news: seq<DataProvider.NewsItem>)
    requires historyLength <= DataProvider.MinHistoryForIndicators
    requires DataProvider.LiveMarketData(ticker, info, historyLength, lastRow, news).Some?
    ensures var s := DataProvider.LiveMarketData(ticker, info, historyLength, lastRow, news).value;
      TechnicalSummary(s.fundamentals, s.technicals) == Insufficient
  {
  }

  // ---------------------------------------------------------------------------
  // Prompt contents

  /** The "Histórico de Transações Recentes" part of a prompt. */
  datatype HistoryText = NoRecentTrades | Recent(trades: seq<Trade>)

  const HistoryWindowSize := 5

  /** `trade_history[-5:]`, or "Nenhuma transação recente." when that is empty. */
  function HistoryWindow(history: seq<Trade>): (r: HistoryText)
    ensures r == NoRecentTrades <==> history == []
    ensures r.Recent? ==> |r.trades| == if |history| <= HistoryWindowSize then |history| else HistoryWindowSize
    ensures r.Recent? ==> r.trades == history[|history| - |r.trades|..]
  {
    if history == [] then NoRecentTrades
    else if |history| <= HistoryWindowSize then Recent(history)
    else Recent(history[|history| - HistoryWindowSize..])
  }

  /** Appending a trade slides the window: the newest trade is last, and the oldest shown drops out once five are shown. */
  lemma HistoryWindowSlides(history: seq<Trade>, t: Trade)
    ensures HistoryWindow(history + [t]).Recent?
    ensures var w := HistoryWindow(history + [t]).trades;
      w[|w| - 1] == t
      && (|history| < HistoryWindowSize ==> w == history + [t])
      && (|history| >= HistoryWindowSize ==> w == HistoryWindow(history).trades[1..] + [t])
  {
    var h := history + [t];
    var w := HistoryWindow(h).trades;
    if |history| >= HistoryWindowSize {
      assert w == h[|h| - HistoryWindowSize..];
      assert HistoryWindow(history).trades == history[|history| - HistoryWindowSize..];
      assert h[|h| - HistoryWindowSize..] == history[|history| - HistoryWindowSize..][1..] + [t];
    }
  }

  /** `market_context.get('ibov_change', 'N/A')`. */
  function IbovChange(marketContext: map<string, string>): string
  {
    if "ibov_change" in marketContext then marketContext["ibov_change"] else "N/A"
  }

  /** `fundamentals.get('Preço Atual', 0)`: a missing key reads as 0. */
  function PriceOrZero(fundamentals: map<string, Option<real>>): Option<real>
  {
    if DataProvider.PriceKey in fundamentals then fundamentals[DataProvider.PriceKey] else Some(0.0)
  }

  /**
   * `profit_loss_percent` of the sell prompt, as a fraction: the price
   * relative to the buy price, minus one, when the buy price is positive and
   * the price is a number; 0 otherwise.
   */
  function ProfitLoss(fundamentals: map<string, Option<real>>, buyPrice: real): (r: real)
    ensures buyPrice <= 0.0 || PriceOrZero(fundamentals).None? ==> r == 0.0
    ensures buyPrice > 0.0 && PriceOrZero(fundamentals).Some? ==> r * buyPrice == PriceOrZero(fundamentals).value - buyPrice
  {
    var currentPrice := PriceOrZero(fundamentals);
    if buyPrice > 0.0 && currentPrice.Some? then currentPrice.value / buyPrice - 1.0 else 0.0
  }

  /** With a positive buy price, the figure is positive iff the price is above the buy price, and never below -100%. */
  lemma ProfitLossSign(fundamentals: map<string, Option<real>>, buyPrice: real)
    requires buyPrice > 0.0 && PriceOrZero(fundamentals).Some?
    ensures ProfitLoss(fundamentals, buyPrice) > 0.0 <==> PriceOrZero(fundamentals).value > buyPrice
    ensures ProfitLoss(fundamentals, buyPrice) == 0.0 <==> PriceOrZero(fundamentals).value == buyPrice
    ensures PriceOrZero(fundamentals).value >= 0.0 ==> ProfitLoss(fundamentals, buyPrice) >= -1.0
  {
    var p := PriceOrZero(fundamentals).value;
    var r := ProfitLoss(fundamentals, buyPrice);
    assert r * buyPrice == p - buyPrice;
    if r > 0.0 {
      assert r * buyPrice > 0.0;
    } else if r < 0.0 {
      assert r * buyPrice < 0.0;
    }
    if p >= 0.0 {
      assert (r + 1.0) * buyPrice == p;
      if r + 1.0 < 0.0 {
        assert (r + 1.0) * buyPrice < 0.0;
      }
    }
  }

  /** A position whose price key is missing reads as a total loss, not as unavailable. */
  lemma MissingPriceIsTotalLoss(fundamentals: map<string, Option<real>>, buyPrice: real)
    requires buyPrice > 0.0 && DataProvider.PriceKey !in fundamentals
    ensures ProfitLoss(fundamentals, buyPrice) == -1.0
  {
  }

  /** One "Candidato" block of the live buy prompt. */
  datatype CandidateBlock = CandidateBlock(ticker: string, price: Option<real>, pe: Option<real>, roe: Option<real>,
                                           analysis: TechnicalText, news: seq<string>)

  /** One "Candidato" block of the backtest buy prompt: price and technicals only. */
  datatype BacktestBlock = BacktestBlock(ticker: string, price: Option<real>, analysis: TechnicalText)

  /** What each prompt carries, apart from its fixed wording. */
  datatype Prompt =
    | BuyPrompt(ibovChange: string, history: HistoryText, candidates: seq<CandidateBlock>)
    | SellPrompt(ibovChange: string, history: HistoryText, ticker: string, buyPrice: real,
                 currentPrice: Option<real>, profitLoss: real, pe: Option<real>, roe: Option<real>,
                 analysis: TechnicalText, news: seq<string>)
    | BacktestBuyPrompt(ibovChange: string, blocks: seq<BacktestBlock>)

  function CandidateBlockOf(s: DataProvider.Snapshot): CandidateBlock
  {
    CandidateBlock(s.ticker, DataProvider.Get(s.fundamentals, DataProvider.PriceKey),
                   DataProvider.Get(s.fundamentals, "P/L"), DataProvider.Get(s.fundamentals, "ROE"),
                   TechnicalSummary(s.fundamentals, s.technicals), s.news)
  }

  function BacktestBlockOf(s: DataProvider.Snapshot): BacktestBlock
  {
    BacktestBlock(s.ticker, DataProvider.Get(s.fundamentals, DataProvider.PriceKey),
                  TechnicalSummary(s.fundamentals, s.technicals))
  }

  /** The candidate blocks, one per candidate and in the candidates' order. */
  function CandidateBlocks(candidates: seq<DataProvider.Snapshot>): (r: seq<CandidateBlock>)
    ensures |r| == |candidates|
    ensures forall i :: 0 <= i < |candidates| ==> r[i] == CandidateBlockOf(candidates[i])
  {
    if candidates == [] then []
    else CandidateBlocks(candidates[..|candidates| - 1]) + [CandidateBlockOf(candidates[|candidates| - 1])]
  }

  function BacktestBlocks(candidates: seq<DataProvider.Snapshot>): (r: seq<BacktestBlock>)
    ensures |r| == |candidates|
    ensures forall i :: 0 <= i < |candidates| ==> r[i] == BacktestBlockOf(candidates[i])
  {
    if candidates == [] then []
    else BacktestBlocks(candidates[..|candidates| - 1]) + [BacktestBlockOf(candidates[|candidates| - 1])]
  }

  /** `_build_buy_prompt`, as a value. */
  function BuyPromptFor(candidates: seq<DataProvider.Snapshot>, history: seq<Trade>,
                        marketContext: map<string, string>): Prompt
  {
    BuyPrompt(IbovChange(marketContext), HistoryWindow(history), CandidateBlocks(candidates))
  }

  /** `_build_sell_prompt`, as a value. */
  function SellPromptFor(data: DataProvider.Snapshot, position: Position, history: seq<Trade>,
                         marketContext: map<string, string>): Prompt
  {
    SellPrompt(IbovChange(marketContext), HistoryWindow(history), data.ticker, position.buyPrice,
               PriceOrZero(data.fundamentals), ProfitLoss(data.fundamentals, position.buyPrice),
               DataProvider.Get(data.fundamentals, "P/L"), DataProvider.Get(data.fundamentals, "ROE"),
               TechnicalSummary(data.fundamentals, data.technicals), data.news)
  }

  /** `_build_buy_prompt_backtest`, as a value. */
  function BacktestBuyPromptFor(candidates: seq<DataProvider.Snapshot>, marketContext: map<string, string>): Prompt
  {
    BacktestBuyPrompt(IbovChange(marketContext), BacktestBlocks(candidates))
  }

  /** `_build_buy_prompt`: appends one block per candidate. */
  method BuildBuyPrompt(candidates: seq<DataProvider.Snapshot>, history: seq<Trade>,
                        marketContext: map<string, string>) returns (p: Prompt)
    ensures p == BuyPromptFor(candidates, history, marketContext)
  {
    var blocks: seq<CandidateBlock> := [];
    var i := 0;
    while i < |candidates|
      invariant 0 <= i <= |candidates|
      invariant blocks == CandidateBlocks(candidates[..i])
    {
      var data := candidates[i];
      var technicalText := FullTechnicalAnalysis(data.fundamentals, data.technicals);
      assert candidates[..i + 1][..i] == candidates[..i];
      blocks := blocks + [CandidateBlock(data.ticker, DataProvider.Get(data.fundamentals, DataProvider.PriceKey),
                                         DataProvider.Get(data.fundamentals, "P/L"),
                                         DataProvider.Get(data.fundamentals, "ROE"), technicalText, data.news)];
      i := i + 1;
    }
    assert candidates[..|candidates|] == candidates;
    p := BuyPrompt(IbovChange(marketContext), HistoryWindow(history), blocks);
  }

  /** `_build_sell_prompt`. */
  method BuildSellPrompt(data: DataProvider.Snapshot, position: Position, history: seq<Trade>,
                         marketContext: map<string, string>) returns (p: Prompt)
    ensures p == SellPromptFor(data, position, history, marketContext)
  {
    var currentPrice := PriceOrZero(data.fundamentals);
    var buyPrice := position.buyPrice;
    var profitLossPercent := 0.0;
    if buyPrice > 0.0 && currentPrice.Some? {
      profitLossPercent := currentPrice.value / buyPrice - 1.0;
    }
    var technicalText := FullTechnicalAnalysis(data.fundamentals, data.technicals);
    p := SellPrompt(IbovChange(marketContext), HistoryWindow(history), data.ticker, buyPrice, currentPrice,
                    profitLossPercent, DataProvider.Get(data.fundamentals, "P/L"),
                    DataProvider.Get(data.fundamentals, "ROE"), technicalText, data.news);
  }

  /** `_build_buy_prompt_backtest`: appends one block per candidate. */
  method BuildBacktestBuyPrompt(candidates: seq<DataProvider.Snapshot>, marketContext: map<string, string>)
    returns (p: Prompt)
    ensures p == BacktestBuyPromptFor(candidates, marketContext)
  {
    var blocks: seq<BacktestBlock> := [];
    var i := 0;
    while i < |candidates|
      invariant 0 <= i <= |candidates|
      invariant blocks == BacktestBlocks(candidates[..i])
    {
      var data := candidates[i];
      var technicalText := FullTechnicalAnalysis(data.fundamentals, data.technicals);
      assert candidates[..i + 1][..i] == candidates[..i];
      blocks := blocks + [BacktestBlock(data.ticker, DataProvider.Get(data.fundamentals, DataProvider.PriceKey),
                                        technicalText)];
      i := i + 1;
    }
    assert candidates[..|candidates|] == candidates;
    p := BacktestBuyPrompt(IbovChange(marketContext), blocks);
  }

  // ---------------------------------------------------------------------------
  // The engine

  /**
   * The generative model as the engine uses it: a prompt in, the reply text
   * out, with a failed call already turned into the empty reply.
   */
  datatype GenerativeModel = GenerativeModel(complete: Prompt -> string)

  class Engine {
    var model: Option<GenerativeModel>

    /** An engine over `model`; None stands for an engine whose model was never set up. */
    constructor (model: Option<GenerativeModel>)
      ensures this.model == model
    {
      this.model := model;
    }

    /** `decide_best_investment`. */
    method DecideBestInvestment(candidates: seq<DataProvider.Snapshot>, history: seq<Trade>,
                                marketContext: map<string, string>, decode: string -> Option<Json>)
      returns (r: Reply)
      ensures model.None? ==> r == Error(ModelNotInitialised)
      ensures model.Some? ==>
        r == ParseResponse(model.value.complete(BuyPromptFor(candidates, history, marketContext)), decode)
    {
      if model.None? {
        return Error(ModelNotInitialised);
      }
      var prompt := BuildBuyPrompt(candidates, history, marketContext);
      var responseText := model.value.complete(prompt);
      r := ParseResponse(responseText, decode);
    }

    /** `should_sell_position`. */
    method ShouldSellPosition(data: DataProvider.Snapshot, position: Position, history: seq<Trade>,
                              marketContext: map<string, string>, decode: string -> Option<Json>)
      returns (r: Reply)
      ensures model.None? ==> r == Error(ModelNotInitialised)
      ensures model.Some? ==>
        r == ParseResponse(model.value.complete(SellPromptFor(data, position, history, marketContext)), decode)
    {
      if model.None? {
        return Error(ModelNotInitialised);
      }
      var prompt := BuildSellPrompt(data, position, history, marketContext);
      var responseText := model.value.complete(prompt);
      r := ParseResponse(responseText, decode);
    }

    /** `decide_best_investment_backtest`. */
    method DecideBestInvestmentBacktest(candidates: seq<DataProvider.Snapshot>, marketContext: map<string, string>,
                                        decode: string -> Option<Json>)
      returns (r: Reply)
      ensures model.None? ==> r == Error(ModelNotInitialised)
      ensures model.Some? ==>
        r == ParseResponse(model.value.complete(BacktestBuyPromptFor(candidates, marketContext)), decode)
    {
      if model.None? {
        return Error(ModelNotInitialised);
      }
      var prompt := BuildBacktestBuyPrompt(candidates, marketContext);
      var responseText := model.value.complete(prompt);
      r := ParseResponse(responseText, decode);
    }
  }

  /** The dictionary a caller receives: an error is `{"decision": "ERROR", "rationale": ...}`. */
  function AsDict(r: Reply): Json
  {
    match r
    case Error(m) => JObject([("decision", JString("ERROR")), ("rationale", JString(m))])
    case Decoded(v) => v
  }

  /**
   * Callers see only the dictionary, and a reply that decodes to an error's
   * dictionary is returned as that same dictionary: the line `Reply` draws
   * between an engine error and a decoded value is not visible to them.
   */
  lemma DecodedReplyCanMimicError(text: string, decode: string -> Option<Json>, message: string)
    requires !IsBlank(text) && decode(Clean(text)) == Some(AsDict(Error(message)))
    ensures ParseResponse(text, decode) == Decoded(AsDict(Error(message)))
    ensures AsDict(ParseResponse(text, decode)) == AsDict(Error(message))
  {
  }

  /** A decoder that answers every text with the "model not initialised" dictionary. */
  function EchoGuard(text: string): Option<Json>
  {
    Some(AsDict(Error(ModelNotInitialised)))
  }

  /** The reply "x" decoded by `EchoGuard` reaches the caller as the guard's own dictionary. */
  lemma GuardDictReplyExample()
    ensures ParseResponse("x", EchoGuard).Decoded?
    ensures AsDict(ParseResponse("x", EchoGuard)) == AsDict(Error(ModelNotInitialised))
  {
    assert !IsSpace("x"[0]);
    DecodedReplyCanMimicError("x", EchoGuard, ModelNotInitialised);
  }
}
