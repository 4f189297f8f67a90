/**
 * Shapes of the stored records of trading_app/models.py that the core reads
 * and writes, and the queries the core runs over them.
 */
module Models {
  import opened Wrappers

  /** TradeHistory.side; the ledger only ever writes 'BUY' or 'SELL'. */
  datatype Side = Buy | Sell

  /** A Position row: ticker, quantity and buy price. */
  datatype Position = Position(ticker: string, quantity: int, buyPrice: real)

  /** A TradeHistory row: ticker, side, quantity and price. */
  datatype Trade = Trade(ticker: string, side: Side, quantity: int, price: real)

  /** `price * quantity`, the value of a trade. */
  function TradeValue(price: real, quantity: int): real
  {
    price * quantity as real
  }

  /** `any(pos.ticker == ticker for pos in positions)`. */
  predicate HasPosition(positions: seq<Position>, ticker: string)
  {
    exists i :: 0 <= i < |positions| && positions[i].ticker == ticker
  }

  /** Number of open positions in `ticker`. */
  function CountPositions(positions: seq<Position>, ticker: string): nat
  {
    if positions == [] then 0
    else (if positions[0].ticker == ticker then 1 else 0) + CountPositions(positions[1..], ticker)
  }

  /**
   * `Position.objects.filter(ticker=ticker).first()`: the index of the oldest
   * position in `ticker`, or None when there is none.
   */
  function FirstIndex(positions: seq<Position>, ticker: string): (r: Option<nat>)
    ensures r.None? <==> !HasPosition(positions, ticker)
    ensures r.Some? ==> r.value < |positions| && positions[r.value].ticker == ticker
    ensures r.Some? ==> forall j :: 0 <= j < r.value ==> positions[j].ticker != ticker
  {
    if positions == [] then None
    else if positions[0].ticker == ticker then Some(0)
    else
      match FirstIndex(positions[1..], ticker)
      case None => None
      case Some(k) => Some(k + 1)
  }

  /** The positions left once the one at index `i` is deleted. */
  function RemoveAt(positions: seq<Position>, i: nat): seq<Position>
    requires i < |positions|
  {
    positions[..i] + positions[i + 1..]
  }

  lemma {:induction false} CountConcat(a: seq<Position>, b: seq<Position>, ticker: string)
    ensures CountPositions(a + b, ticker) == CountPositions(a, ticker) + CountPositions(b, ticker)
  {
    if a != [] {
      assert (a + b)[1..] == a[1..] + b;
      CountConcat(a[1..], b, ticker);
    } else {
      assert a + b == b;
    }
  }

  /** Holding a ticker is the same as holding at least one position in it. */
  lemma {:induction false} HasPositionIffCount(positions: seq<Position>, ticker: string)
    ensures HasPosition(positions, ticker) <==> CountPositions(positions, ticker) > 0
  {
    if positions != [] {
      HasPositionIffCount(positions[1..], ticker);
      if HasPosition(positions[1..], ticker) {
        var i :| 0 <= i < |positions[1..]| && positions[1..][i].ticker == ticker;
        assert positions[i + 1].ticker == ticker;
      }
      if HasPosition(positions, ticker) && positions[0].ticker != ticker {
        var i :| 0 <= i < |positions| && positions[i].ticker == ticker;
        assert positions[1..][i - 1].ticker == ticker;
      }
    }
  }

  /**
   * Deleting the position at index i lowers the count of its own ticker by
   * one and leaves every other ticker's count as it was.
   */
  lemma RemoveAtCounts(positions: seq<Position>, i: nat, ticker: string)
    requires i < |positions|
    ensures CountPositions(RemoveAt(positions, i), ticker)
         == CountPositions(positions, ticker) - (if positions[i].ticker == ticker then 1 else 0)
  {
    assert positions == positions[..i] + ([positions[i]] + positions[i + 1..]);
    CountConcat(positions[..i], [positions[i]] + positions[i + 1..], ticker);
    CountConcat([positions[i]], positions[i + 1..], ticker);
    CountConcat(positions[..i], positions[i + 1..], ticker);
    assert CountPositions([positions[i]], ticker) == if positions[i].ticker == ticker then 1 else 0 by {
      assert [positions[i]][1..] == [];
    }
  }
}
