/** execution/: slippage, commission, the simulated broker and the dry-run broker. */
module Execution {
  import opened Wrappers
  import opened Models
  import opened Accounting

  datatype Broker =
    | Simulated(commissionRate: real, slippageRate: real)
    | DryRun

  function ApplyPercentSlippage(price: real, side: Side, rate: real): real {
    if side.Buy? then price * (1.0 + rate) else price * (1.0 - rate)
  }

  function PercentCommission(notional: real, rate: real): real {
    notional * rate
  }

  function Abs(x: real): real {
    if x < 0.0 then -x else x
  }

  function ExecuteMarketOrder(commissionRate: real, slippageRate: real, intent: OrderIntent, bar: Bar): Fill {
    var price := ApplyPercentSlippage(bar.close, intent.side, slippageRate);
    var notional := Times(price, intent.quantity);
    Fill(intent.instrumentId, intent.side, intent.quantity, price,
         PercentCommission(notional, commissionRate),
         Times(Abs(price - bar.close), intent.quantity), bar.timestamp)
  }

  /** A dry run accepts every order and fills none. */
  function SubmitOrder(broker: Broker, intent: OrderIntent, bar: Bar): Option<Fill> {
    match broker
    case Simulated(c, s) => Some(ExecuteMarketOrder(c, s, intent, bar))
    case DryRun => None
  }

  ghost predicate RatesInUnit(broker: Broker) {
    broker.Simulated? ==> 0.0 <= broker.commissionRate <= 1.0 && 0.0 <= broker.slippageRate <= 1.0
  }

  lemma ProductNonNegative(x: real, y: real)
    requires 0.0 <= x && 0.0 <= y
    ensures 0.0 <= x * y
  {
  }

  /** The notional of a fill is the flat value at the close, moved by the slippage rate. */
  lemma FillAmounts(commissionRate: real, slippageRate: real, intent: OrderIntent, bar: Bar)
    ensures var f := ExecuteMarketOrder(commissionRate, slippageRate, intent, bar);
            var flat := Times(bar.close, intent.quantity);
            && f.Notional() == (if f.side.Buy? then flat + flat * slippageRate else flat - flat * slippageRate)
            && f.commission == f.Notional() * commissionRate
  {
    var gap, n := bar.close * slippageRate, intent.quantity;
    TimesSplits(bar.close, gap, n, 0);
    assert Times(gap, n) == Times(bar.close, n) * slippageRate;
  }

  lemma SlippageAmount(commissionRate: real, slippageRate: real, intent: OrderIntent, bar: Bar)
    requires 0.0 <= bar.close * slippageRate
    ensures var f := ExecuteMarketOrder(commissionRate, slippageRate, intent, bar);
            f.slippage == Abs(f.Notional() - Times(bar.close, intent.quantity))
  {
    var f := ExecuteMarketOrder(commissionRate, slippageRate, intent, bar);
    var gap, n := bar.close * slippageRate, intent.quantity;
    assert f.price - bar.close == if f.side.Buy? then gap else -gap;
    TimesSplits(f.price, bar.close, n, 0);
    ProductNonNegative(gap, n as real);
    TimesSplits(0.0, gap, n, 0);
  }

  /** With rates in [0, 1] and a positive close, a fill never pays the trader better than
      the close, and neither half of its booking can push cash below zero: a buy books
      the notional and then the commission out of cash that covers both, a sale's
      commission never exceeds its proceeds. */
  lemma FillNeverBeatsClose(broker: Broker, intent: OrderIntent, bar: Bar)
    requires broker.Simulated? && RatesInUnit(broker) && 0.0 < bar.close
    ensures var f, flat := SubmitOrder(broker, intent, bar).value, Times(bar.close, intent.quantity);
            && 0.0 <= f.Notional() && 0.0 <= f.commission && f.slippage == Abs(f.Notional() - flat)
            && (f.side.Buy? ==> CashFlow(f) <= -flat)
            && (f.side.Sell? ==> 0.0 <= CashFlow(f) <= flat)
  {
    var c, s, flat := broker.commissionRate, broker.slippageRate, Times(bar.close, intent.quantity);
    FillAmounts(c, s, intent, bar);
    ProductNonNegative(bar.close, s);
    SlippageAmount(c, s, intent, bar);
    ProductNonNegative(bar.close, intent.quantity as real);
    ProductNonNegative(flat, s);
    ProductNonNegative(flat, 1.0 - s);
    var notional := SubmitOrder(broker, intent, bar).value.Notional();
    ProductNonNegative(notional, c);
    ProductNonNegative(notional, 1.0 - c);
  }
}
