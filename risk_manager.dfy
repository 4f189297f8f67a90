/**
 * The risk gate of core_logic/risk_manager.py: a pure predicate deciding
 * whether a proposed trade is permitted, given the account balance and the
 * open positions.
 */
module RiskManager {
  import opened Models

  /**
   * config.RISK_PERCENTAGE_PER_TRADE: the largest share of the balance a
   * single BUY may commit. Every result below holds for every such value.
   */
  type RiskFraction = r: real | 0.0 < r <= 1.0 witness 1.0

  /** `is_trade_allowed`: three denial rules, otherwise allowed. */
  predicate IsTradeAllowed(risk: RiskFraction, accountBalance: real, openPositions: seq<Position>,
                           tickerToTrade: string, tradeValue: real, side: string)
  {
    if side == "BUY" then
      var maxValuePerTrade := accountBalance * risk;
      if tradeValue > maxValuePerTrade then false
      else if HasPosition(openPositions, tickerToTrade) then false
      else true
    else if side == "SELL" then
      HasPosition(openPositions, tickerToTrade)
    else
      true
  }

  /** A BUY over the per-trade limit is denied. */
  lemma BuyDeniedOverLimit(risk: RiskFraction, balance: real, positions: seq<Position>, ticker: string, value: real)
    requires value > balance * risk
    ensures !IsTradeAllowed(risk, balance, positions, ticker, value, "BUY")
  {
  }

  /** A BUY of a ticker already held is denied: no averaging-in. */
  lemma BuyDeniedWhenHeld(risk: RiskFraction, balance: real, positions: seq<Position>, ticker: string, value: real)
    requires exists i :: 0 <= i < |positions| && positions[i].ticker == ticker
    ensures !IsTradeAllowed(risk, balance, positions, ticker, value, "BUY")
  {
  }

  /** A SELL of a ticker not held is denied. */
  lemma SellDeniedWhenNotHeld(risk: RiskFraction, balance: real, positions: seq<Position>, ticker: string, value: real)
    requires forall i :: 0 <= i < |positions| ==> positions[i].ticker != ticker
    ensures !IsTradeAllowed(risk, balance, positions, ticker, value, "SELL")
  {
  }

  /** A BUY is allowed exactly when it fits the limit and the ticker is not held. */
  lemma BuyAllowedIff(risk: RiskFraction, balance: real, positions: seq<Position>, ticker: string, value: real)
    ensures IsTradeAllowed(risk, balance, positions, ticker, value, "BUY")
        <==> value <= balance * risk && CountPositions(positions, ticker) == 0
  {
    HasPositionIffCount(positions, ticker);
  }

  /** A SELL is allowed exactly when the ticker is held, whatever its value. */
  lemma SellAllowedIff(risk: RiskFraction, balance: real, positions: seq<Position>, ticker: string, value: real)
    ensures IsTradeAllowed(risk, balance, positions, ticker, value, "SELL")
        <==> CountPositions(positions, ticker) > 0
  {
    HasPositionIffCount(positions, ticker);
  }

  /** A side other than 'BUY' or 'SELL' is never denied. */
  lemma OtherSideAllowed(risk: RiskFraction, balance: real, positions: seq<Position>, ticker: string, value: real, side: string)
    requires side != "BUY" && side != "SELL"
    ensures IsTradeAllowed(risk, balance, positions, ticker, value, side)
  {
  }

  /** An allowed BUY stays allowed at any smaller value. */
  lemma BuyMonotoneInValue(risk: RiskFraction, balance: real, positions: seq<Position>, ticker: string,
                           value: real, smaller: real)
    requires IsTradeAllowed(risk, balance, positions, ticker, value, "BUY")
    requires smaller <= value
    ensures IsTradeAllowed(risk, balance, positions, ticker, smaller, "BUY")
  {
  }

  /** An allowed BUY stays allowed with a larger balance and the same positions. */
  lemma BuyMonotoneInBalance(risk: RiskFraction, balance: real, larger: real, positions: seq<Position>,
                             ticker: string, value: real)
    requires IsTradeAllowed(risk, balance, positions, ticker, value, "BUY")
    requires balance <= larger
    ensures IsTradeAllowed(risk, larger, positions, ticker, value, "BUY")
  {
    var gap := larger - balance;
    assert gap >= 0.0 && risk > 0.0;
    assert gap * risk >= 0.0;
    assert larger * risk == balance * risk + gap * risk;
  }

  /**
   * With a non-negative balance, a BUY the gate allows is never worth more
   * than the whole balance, so the ledger's funds check accepts it.
   */
  lemma AllowedBuyIsFunded(risk: RiskFraction, balance: real, positions: seq<Position>, ticker: string, value: real)
    requires balance >= 0.0
    requires IsTradeAllowed(risk, balance, positions, ticker, value, "BUY")
    ensures value <= balance
  {
    assert balance * risk <= balance by {
      assert balance * (1.0 - risk) >= 0.0;
    }
  }
}
