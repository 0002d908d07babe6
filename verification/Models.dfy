/** The value records of core/models.py. Instrument names, order types and reasons
    take no part in any computation and are dropped. */
module Models {
  import opened Wrappers
  import opened Sums

  /** Money times a share count, and money split over one. */
  function Times(x: real, n: int): real {
    x * n as real
  }

  function Over(x: real, n: int): real
    requires n != 0
  {
    x / n as real
  }

  lemma OverTimes(x: real, n: int)
    requires n != 0
    ensures Times(Over(x, n), n) == x
  {
  }

  lemma TimesSplits(x: real, y: real, n: int, m: int)
    ensures Times(x, n - m) == Times(x, n) - Times(x, m)
    ensures Times(x - y, n) == Times(x, n) - Times(y, n)
    ensures Times(x + y, n) == Times(x, n) + Times(y, n)
  {
    assert (n - m) as real == n as real - m as real;
  }

  lemma TimesAdds(x: real, n: int, m: int)
    ensures Times(x, n + m) == Times(x, n) + Times(x, m)
  {
    assert (n + m) as real == n as real + m as real;
  }

  lemma TimesGrows(x: real, n: int, m: int)
    requires 0.0 <= x && n <= m
    ensures Times(x, n) <= Times(x, m)
  {
    var gap := m as real - n as real;
    assert 0.0 <= x * gap;
  }

  datatype Side = Buy | Sell

  /** `OrderIntent` and `BrokerOrderRequest` both reject a quantity that is not positive. */
  type Quantity = n: int | 0 < n witness 1

  datatype Bar = Bar(
    instrumentId: int, timestamp: int,
    open: real, high: real, low: real, close: real, volume: real,
    adjusted: string, source: string)

  datatype OrderIntent = OrderIntent(instrumentId: int, side: Side, quantity: Quantity)

  datatype Fill = Fill(
    instrumentId: int, side: Side, quantity: Quantity,
    price: real, commission: real, slippage: real, filledAt: int)
  {
    function Notional(): real {
      Times(price, quantity)
    }
  }

  datatype Position = Position(quantity: int, avgCost: real, marketPrice: real)

  function PositionValue(p: Position): real {
    Times(p.marketPrice, p.quantity)
  }

  function PositionCost(p: Position): real {
    Times(p.avgCost, p.quantity)
  }

  function PositionGain(p: Position): real {
    Times(p.marketPrice - p.avgCost, p.quantity)
  }

  datatype Portfolio = Portfolio(
    cash: real, positions: map<int, Position>, realizedPnl: real, peakEquity: Option<real>)
  {
    function MarketValue(): real {
      SumBy(positions, PositionValue)
    }

    function Equity(): real {
      cash + MarketValue()
    }

    function UnrealizedPnl(): real {
      SumBy(positions, PositionGain)
    }

    /** `peak_equity or equity`: a missing and a zero peak both fall back to equity. */
    function Peak(): real {
      if peakEquity.None? || peakEquity.value == 0.0 then Equity() else peakEquity.value
    }

    function Drawdown(): real {
      if Peak() <= 0.0 then 0.0 else (Peak() - Equity()) / Peak()
    }

    function Held(instrumentId: int): int {
      if instrumentId in positions then positions[instrumentId].quantity else 0
    }

    /** What was paid in so far: cash plus the cost of what is held, less realised gains. */
    function BookValue(): real {
      cash + SumBy(positions, PositionCost) - realizedPnl
    }

    /** Only instruments that are really held have an entry. */
    ghost predicate AllLong() {
      forall k :: k in positions ==> 0 < positions[k].quantity
    }
  }

  /** The position of the bar's instrument revalued to its close. */
  function Marked(p: Portfolio, bar: Bar): Portfolio {
    if bar.instrumentId in p.positions then
      p.(positions := p.positions[bar.instrumentId := p.positions[bar.instrumentId].(marketPrice := bar.close)])
    else p
  }

  lemma MarkingKeepsBook(p: Portfolio, bar: Bar)
    ensures Marked(p, bar).BookValue() == p.BookValue()
  {
    SumAgree(p.positions, PositionCost, Marked(p, bar).positions, PositionCost);
  }

  /** A strategy reads the bars so far and the portfolio, and changes neither. */
  type Strategy = (seq<Bar>, Portfolio) -> seq<OrderIntent>

  lemma EquityDecomposes(p: Portfolio)
    ensures p.Equity() == p.BookValue() + p.realizedPnl + p.UnrealizedPnl()
  {
    forall k | k in p.positions
      ensures PositionValue(p.positions[k]) == PositionCost(p.positions[k]) + PositionGain(p.positions[k])
    {
      var held := p.positions[k];
      TimesSplits(held.marketPrice, held.avgCost, held.quantity, 0);
    }
    SumPlus(p.positions, PositionCost, PositionGain, PositionValue);
  }

  /** Drawdown is negative exactly when equity stands above a positive peak, and above 1
      exactly when equity has fallen below zero from one. */
  lemma DrawdownSign(p: Portfolio)
    ensures p.Drawdown() < 0.0 <==> 0.0 < p.Peak() < p.Equity()
    ensures p.Drawdown() > 1.0 <==> 0.0 < p.Peak() && p.Equity() < 0.0
  {
    if 0.0 < p.Peak() {
      QuotientCompares(p.Peak() - p.Equity(), p.Peak(), 0.0);
      QuotientCompares(p.Peak() - p.Equity(), p.Peak(), 1.0);
    }
  }

  lemma QuotientCompares(x: real, d: real, y: real)
    requires 0.0 < d
    ensures x / d < y <==> x < y * d
    ensures x / d > y <==> x > y * d
  {
    var q := x / d;
    assert q * d == x;
    var gap := (y - q) * d;
    assert gap == y * d - x;
    assert 0.0 < gap <==> q < y;
    assert gap < 0.0 <==> y < q;
  }
}
