/** portfolio/accounting.py: one fill applied to a portfolio. */
module Accounting {
  import opened Wrappers
  import opened Sums
  import opened Models

  datatype FillError = InsufficientCash | Oversell | DivisionByZero

  function Bought(p: Portfolio, f: Fill): Result<Position, FillError> {
    var cost := f.Notional() + f.commission;
    if f.instrumentId in p.positions then
      var before := p.positions[f.instrumentId];
      var total := before.quantity + f.quantity;
      if total == 0 then Err(DivisionByZero)
      else Ok(Position(total, Over(PositionCost(before) + cost, total), f.price))
    else Ok(Position(f.quantity, Over(cost, f.quantity), f.price))
  }

  function WithPeak(p: Portfolio): Portfolio {
    p.(peakEquity := Some(if p.Peak() < p.Equity() then p.Equity() else p.Peak()))
  }

  function ApplyFill(p: Portfolio, f: Fill): Result<Portfolio, FillError> {
    if f.side.Buy? then
      var cost := f.Notional() + f.commission;
      if cost > p.cash then Err(InsufficientCash)
      else match Bought(p, f)
        case Err(e) => Err(e)
        case Ok(held) =>
          Ok(WithPeak(p.(cash := p.cash - cost, positions := p.positions[f.instrumentId := held])))
    else if p.Held(f.instrumentId) < f.quantity then Err(Oversell)
    else
      var before := p.positions[f.instrumentId];
      var left := before.(quantity := before.quantity - f.quantity, marketPrice := f.price);
      Ok(WithPeak(p.(
        cash := p.cash + (f.Notional() - f.commission),
        realizedPnl := p.realizedPnl + (Times(f.price - before.avgCost, f.quantity) - f.commission),
        positions := if left.quantity == 0 then p.positions - {f.instrumentId}
                     else p.positions[f.instrumentId := left])))
  }

  /** The source's own order of updates on a private copy of the portfolio. */
  method ApplyFillToCopy(portfolio: Portfolio, fill: Fill) returns (r: Result<Portfolio, FillError>)
    ensures r == ApplyFill(portfolio, fill)
  {
    var updated := portfolio;
    var notional := Times(fill.price, fill.quantity);
    if fill.side == Buy {
      var totalCost := notional + fill.commission;
      if totalCost > updated.cash {
        return Err(InsufficientCash);
      }
      updated := updated.(cash := updated.cash - totalCost);
      if fill.instrumentId in updated.positions {
        var existing := updated.positions[fill.instrumentId];
        var totalQuantity := existing.quantity + fill.quantity;
        totalCost := Times(existing.avgCost, existing.quantity) + totalCost;
        if totalQuantity == 0 {
          return Err(DivisionByZero);
        }
        existing := existing.(quantity := totalQuantity);
        existing := existing.(avgCost := Over(totalCost, totalQuantity));
        existing := existing.(marketPrice := fill.price);
        updated := updated.(positions := updated.positions[fill.instrumentId := existing]);
        assert Bought(portfolio, fill) == Ok(existing);
        assert ApplyFill(portfolio, fill) == Ok(WithPeak(updated));
      } else {
        var started := Position(fill.quantity, Over(totalCost, fill.quantity), fill.price);
        updated := updated.(positions := updated.positions[fill.instrumentId := started]);
        assert Bought(portfolio, fill) == Ok(started);
        assert ApplyFill(portfolio, fill) == Ok(WithPeak(updated));
      }
    } else {
      if fill.instrumentId !in updated.positions ||
         updated.positions[fill.instrumentId].quantity < fill.quantity {
        return Err(Oversell);
      }
      assert portfolio.Held(fill.instrumentId) >= fill.quantity;
      var existing := updated.positions[fill.instrumentId];
      var realized := Times(fill.price - existing.avgCost, fill.quantity) - fill.commission;
      updated := updated.(cash := updated.cash + (notional - fill.commission));
      updated := updated.(realizedPnl := updated.realizedPnl + realized);
      existing := existing.(quantity := existing.quantity - fill.quantity);
      existing := existing.(marketPrice := fill.price);
      if existing.quantity == 0 {
        updated := updated.(positions := updated.positions - {fill.instrumentId});
        assert ApplyFill(portfolio, fill) == Ok(WithPeak(updated));
      } else {
        updated := updated.(positions := updated.positions[fill.instrumentId := existing]);
        assert ApplyFill(portfolio, fill) == Ok(WithPeak(updated));
      }
    }
    var peak := updated.Peak();
    var equity := updated.Equity();
    updated := updated.(peakEquity := Some(if peak < equity then equity else peak));
    return Ok(updated);
  }

  function CashFlow(f: Fill): real {
    if f.side.Buy? then -f.Notional() - f.commission else f.Notional() - f.commission
  }

  function SignedQuantity(f: Fill): int {
    if f.side.Buy? then f.quantity else 0 - f.quantity
  }

  /** Cash moves by the notional and the commission, the traded instrument by the signed
      quantity; a sale keeps the average cost; no other instrument is touched; a
      portfolio without short or empty entries stays so. */
  lemma FillEffect(p: Portfolio, f: Fill)
    requires p.AllLong() && ApplyFill(p, f).Ok?
    ensures var q := ApplyFill(p, f).value;
            && q.AllLong()
            && q.cash == p.cash + CashFlow(f)
            && q.Held(f.instrumentId) == p.Held(f.instrumentId) + SignedQuantity(f)
            && q.positions - {f.instrumentId} == p.positions - {f.instrumentId}
            && (f.side.Sell? && f.instrumentId in q.positions ==>
                  q.positions[f.instrumentId].avgCost == p.positions[f.instrumentId].avgCost)
            && (f.instrumentId in q.positions ==> q.positions[f.instrumentId].marketPrice == f.price)
            && (f.side.Buy? ==> q.realizedPnl == p.realizedPnl)
  {
  }

  /** After an accepted fill the recorded peak covers the equity, so drawdown is not negative,
      and an earlier peak is never forgotten. */
  lemma FillRaisesPeak(p: Portfolio, f: Fill)
    requires ApplyFill(p, f).Ok?
    ensures var q := ApplyFill(p, f).value;
            && q.Equity() <= q.Peak() && 0.0 <= q.Drawdown()
            && q.peakEquity.Some?
            && (p.peakEquity.Some? && p.peakEquity.value != 0.0 ==>
                  q.peakEquity.value == if p.peakEquity.value < q.Equity() then q.Equity() else p.peakEquity.value)
            && (p.peakEquity.None? || p.peakEquity.value == 0.0 ==> q.peakEquity.value == q.Equity())
  {
    DrawdownSign(ApplyFill(p, f).value);
  }

  /** The three ways a fill is refused; long portfolios never divide by zero. */
  lemma FillRefusedExactly(p: Portfolio, f: Fill)
    requires p.AllLong()
    ensures ApplyFill(p, f) == Err(InsufficientCash)
            <==> f.side.Buy? && p.cash + CashFlow(f) < 0.0
    ensures ApplyFill(p, f) == Err(Oversell)
            <==> f.side.Sell? && p.Held(f.instrumentId) < f.quantity
    ensures ApplyFill(p, f) != Err(DivisionByZero)
  {
  }

  function CostOf(p: Portfolio, k: int): real {
    if k in p.positions then PositionCost(p.positions[k]) else 0.0
  }

  lemma CostSplits(p: Portfolio, k: int)
    ensures SumBy(p.positions, PositionCost) == CostOf(p, k) + SumBy(p.positions - {k}, PositionCost)
  {
    SumSplits(p.positions, PositionCost, k);
  }

  /** The cost of the traded instrument grows by what a buy cost and shrinks by the
      average cost of what a sale gave up. */
  lemma FillMovesCost(p: Portfolio, f: Fill)
    requires ApplyFill(p, f).Ok?
    ensures var q := ApplyFill(p, f).value;
            CostOf(q, f.instrumentId) - CostOf(p, f.instrumentId) - (q.realizedPnl - p.realizedPnl) == -CashFlow(f)
  {
    var q, k := ApplyFill(p, f).value, f.instrumentId;
    if f.side.Buy? {
      OverTimes(CostOf(p, k) + (f.Notional() + f.commission), q.positions[k].quantity);
    } else {
      var before := p.positions[k];
      TimesSplits(before.avgCost, 0.0, before.quantity, f.quantity);
      TimesSplits(f.price, before.avgCost, f.quantity, 0);
    }
  }

  /** Accepted fills neither create nor destroy value, commissions included. */
  lemma FillConservesBookValue(p: Portfolio, f: Fill)
    requires ApplyFill(p, f).Ok?
    ensures ApplyFill(p, f).value.BookValue() == p.BookValue()
  {
    var q := ApplyFill(p, f).value;
    FillMovesCost(p, f);
    CostSplits(p, f.instrumentId);
    CostSplits(q, f.instrumentId);
    assert q.positions - {f.instrumentId} == p.positions - {f.instrumentId};
    assert q.cash == p.cash + CashFlow(f);
  }

  /** A run of fills, as an account sees it: refused fills stop it. */
  function ApplyFills(p: Portfolio, fills: seq<Fill>): Result<Portfolio, FillError>
    decreases |fills|
  {
    if fills == [] then Ok(p)
    else match ApplyFill(p, fills[0])
      case Err(e) => Err(e)
      case Ok(q) => ApplyFills(q, fills[1..])
  }

  /** Conservation over any sequence of accepted fills, and what equity then is. */
  lemma {:induction false} FillsConserve(p: Portfolio, fills: seq<Fill>)
    requires ApplyFills(p, fills).Ok?
    ensures var q := ApplyFills(p, fills).value;
            && q.BookValue() == p.BookValue()
            && q.Equity() == p.BookValue() + q.realizedPnl + q.UnrealizedPnl()
    decreases |fills|
  {
    EquityDecomposes(ApplyFills(p, fills).value);
    if fills != [] {
      FillConservesBookValue(p, fills[0]);
      FillsConserve(ApplyFill(p, fills[0]).value, fills[1..]);
    }
  }
}
