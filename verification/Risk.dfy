/** risk/: the rules and the engine that stops at the first rule that does not approve. */
module Risk {
  import opened Wrappers
  import opened Sums
  import opened Models
  import opened Accounting
  import opened Execution

  datatype RiskRule =
    | StrategyStatusRule
    | NoTradeWithoutDataRule
    | PriceSanityRule
    | MaxOrderValueRule(maxOrderValue: real)
    | MaxGrossExposureRule(maxGrossExposure: real)

  datatype Decision = Approved | Rejected(rule: RiskRule)

  function Min(x: real, y: real): real {
    if x < y then x else y
  }

  /** Market value the portfolio would have after the order, at the bar's close. */
  function ProposedValue(intent: OrderIntent, bar: Bar, portfolio: Portfolio): real {
    var notional := Times(bar.close, intent.quantity);
    if intent.side.Buy? then portfolio.MarketValue() + notional
    else
      var current := if intent.instrumentId in portfolio.positions
                     then PositionValue(portfolio.positions[intent.instrumentId]) else 0.0;
      portfolio.MarketValue() - Min(current, notional)
  }

  /** `bar` is None when there is no market data. */
  predicate Passes(rule: RiskRule, intent: OrderIntent, bar: Option<Bar>, portfolio: Portfolio, approved: bool) {
    match rule
    case StrategyStatusRule => approved
    case NoTradeWithoutDataRule => bar.Some?
    case PriceSanityRule => bar.Some? && 0.0 < bar.value.close
    case MaxOrderValueRule(limit) => bar.Some? && Times(bar.value.close, intent.quantity) <= limit
    case MaxGrossExposureRule(limit) =>
      && bar.Some?
      && 0.0 < portfolio.Equity()
      && ProposedValue(intent, bar.value, portfolio) / portfolio.Equity() <= limit
  }

  function CheckOrder(rules: seq<RiskRule>, intent: OrderIntent, bar: Option<Bar>,
                      portfolio: Portfolio, approved: bool): Decision
  {
    if rules == [] then Approved
    else if !Passes(rules[0], intent, bar, portfolio, approved) then Rejected(rules[0])
    else CheckOrder(rules[1..], intent, bar, portfolio, approved)
  }

  /** Approved exactly when every rule passes; otherwise the answer is the first rule that does not. */
  lemma {:induction false} CheckOrderFirstRefusal(rules: seq<RiskRule>, intent: OrderIntent, bar: Option<Bar>,
                                                  portfolio: Portfolio, approved: bool)
    ensures CheckOrder(rules, intent, bar, portfolio, approved).Approved?
            <==> forall i :: 0 <= i < |rules| ==> Passes(rules[i], intent, bar, portfolio, approved)
    ensures CheckOrder(rules, intent, bar, portfolio, approved).Rejected? ==>
              exists i :: 0 <= i < |rules|
                && CheckOrder(rules, intent, bar, portfolio, approved).rule == rules[i]
                && !Passes(rules[i], intent, bar, portfolio, approved)
                && forall j :: 0 <= j < i ==> Passes(rules[j], intent, bar, portfolio, approved)
  {
    if rules != [] && Passes(rules[0], intent, bar, portfolio, approved) {
      CheckOrderFirstRefusal(rules[1..], intent, bar, portfolio, approved);
      var rest := CheckOrder(rules[1..], intent, bar, portfolio, approved);
      if rest.Rejected? {
        var i :| 0 <= i < |rules[1..]|
          && rest.rule == rules[1..][i]
          && !Passes(rules[1..][i], intent, bar, portfolio, approved)
          && forall j :: 0 <= j < i ==> Passes(rules[1..][j], intent, bar, portfolio, approved);
        assert rules[i + 1] == rules[1..][i];
        forall j | 0 <= j < i + 1 ensures Passes(rules[j], intent, bar, portfolio, approved) {
          if 0 < j { assert rules[j] == rules[1..][j - 1]; }
        }
      } else {
        forall j | 0 <= j < |rules| ensures Passes(rules[j], intent, bar, portfolio, approved) {
          if 0 < j { assert rules[j] == rules[1..][j - 1]; }
        }
      }
    }
  }

  // ----- What the exposure rule promises -----

  function ValueOf(p: Portfolio, k: int): real {
    if k in p.positions then PositionValue(p.positions[k]) else 0.0
  }

  lemma ValueSplits(p: Portfolio, k: int)
    ensures p.MarketValue() == ValueOf(p, k) + SumBy(p.positions - {k}, PositionValue)
  {
    SumSplits(p.positions, PositionValue, k);
  }

  /** How far slippage moves the price of a fill away from the close. */
  function PriceGap(slippageRate: real, intent: OrderIntent, bar: Bar): real {
    if intent.side.Buy? then bar.close * slippageRate else -(bar.close * slippageRate)
  }

  function Commission(commissionRate: real, slippageRate: real, intent: OrderIntent, bar: Bar): real {
    PercentCommission(Times(bar.close + PriceGap(slippageRate, intent, bar), intent.quantity), commissionRate)
  }

  function HeldAfter(intent: OrderIntent, p: Portfolio): int {
    if intent.side.Buy? then p.Held(intent.instrumentId) + intent.quantity
    else p.Held(intent.instrumentId) - intent.quantity
  }

  lemma ValueAfter(q: Portfolio, k: int, price: real, left: int)
    requires q.Held(k) == left && (k in q.positions ==> q.positions[k].marketPrice == price)
    ensures ValueOf(q, k) == Times(price, left)
  {
  }

  function FillPrice(s: real, intent: OrderIntent, bar: Bar): real {
    bar.close + PriceGap(s, intent, bar)
  }

  /** What a filled order leaves, at any rates and whatever the instrument was marked at, from
      what is known before it: all that is then held is valued at the fill price, and equity
      gains by that revaluation of what was held and pays the commission. */
  lemma OrderOutcome(c: real, s: real, intent: OrderIntent, bar: Bar, p: Portfolio)
    requires p.AllLong() && ApplyFill(p, ExecuteMarketOrder(c, s, intent, bar)).Ok?
    ensures var q := ApplyFill(p, ExecuteMarketOrder(c, s, intent, bar)).value;
            var k, price := intent.instrumentId, FillPrice(s, intent, bar);
            && q.MarketValue() == p.MarketValue() - ValueOf(p, k) + Times(price, HeldAfter(intent, p))
            && q.Equity() == p.Equity() - ValueOf(p, k) + Times(price, p.Held(k)) - Commission(c, s, intent, bar)
  {
    var f, k := ExecuteMarketOrder(c, s, intent, bar), intent.instrumentId;
    var q, price := ApplyFill(p, f).value, FillPrice(s, intent, bar);
    assert f.price == price;
    FillEffect(p, f);
    ValueSplits(p, k);
    ValueSplits(q, k);
    ValueAfter(q, k, price, HeldAfter(intent, p));
    CostsSplit(price, p.Held(k), HeldAfter(intent, p), intent.quantity, intent.side);
  }

  lemma CostsSplit(x: real, held: int, left: int, n: int, side: Side)
    requires left == if side.Buy? then held + n else held - n
    ensures Times(x, left) == if side.Buy? then Times(x, held) + Times(x, n) else Times(x, held) - Times(x, n)
  {
    TimesAdds(x, held, n);
    TimesSplits(x, 0.0, held, n);
  }

  predicate WithinExposure(limit: real, p: Portfolio) {
    p.MarketValue() <= limit * p.Equity()
  }

  function Unused(limit: real, equity: real, value: real): real {
    limit * equity - value
  }

  /** The value an order may still add when the rule looks at it. */
  function Room(limit: real, intent: OrderIntent, bar: Bar, p: Portfolio): real {
    Unused(limit, p.Equity(), ProposedValue(intent, bar, p))
  }

  /** By how much the rule expects the order to change the market value. */
  function ExpectedChange(intent: OrderIntent, bar: Bar, p: Portfolio): real {
    var notional := Times(bar.close, intent.quantity);
    if intent.side.Buy? then notional else -Min(ValueOf(p, intent.instrumentId), notional)
  }

  /** By how much the market value ends above what the rule expected. */
  function Moved(s: real, intent: OrderIntent, bar: Bar, p: Portfolio): real {
    Times(FillPrice(s, intent, bar), HeldAfter(intent, p)) - ValueOf(p, intent.instrumentId)
    - ExpectedChange(intent, bar, p)
  }

  /** By how much the equity changes: what was held is revalued, and the commission is paid. */
  function EquityChange(c: real, s: real, intent: OrderIntent, bar: Bar, p: Portfolio): real {
    var k := intent.instrumentId;
    Times(FillPrice(s, intent, bar), p.Held(k)) - ValueOf(p, k) - Commission(c, s, intent, bar)
  }

  /** What the fill uses up of the room beyond what the rule expected. */
  function Strain(limit: real, c: real, s: real, intent: OrderIntent, bar: Bar, p: Portfolio): real {
    Exceeded(Moved(s, intent, bar, p), limit, EquityChange(c, s, intent, bar, p))
  }

  function Exceeded(moved: real, limit: real, change: real): real {
    moved - limit * change
  }

  lemma LimitSplits(limit: real, x: real, y: real)
    ensures limit * (x + y) == limit * x + limit * y
  {
  }

  lemma WithinLimit(limit: real, proposed: real, moved: real, before: real, change: real, q: Portfolio)
    requires q.MarketValue() == proposed + moved && q.Equity() == before + change
    ensures WithinExposure(limit, q) <==> Exceeded(moved, limit, change) <= Unused(limit, before, proposed)
  {
    LimitSplits(limit, before, change);
  }

  lemma RuleLooksForRoom(limit: real, intent: OrderIntent, bar: Bar, p: Portfolio, approved: bool)
    ensures Passes(MaxGrossExposureRule(limit), intent, Some(bar), p, approved)
            <==> 0.0 < p.Equity() && 0.0 <= Room(limit, intent, bar, p)
  {
    if 0.0 < p.Equity() {
      QuotientCompares(ProposedValue(intent, bar, p), p.Equity(), limit);
    }
  }

  /** The outcome next to what the rule computed. */
  lemma OutcomeNextToProposed(c: real, s: real, intent: OrderIntent, bar: Bar, p: Portfolio)
    requires p.AllLong() && ApplyFill(p, ExecuteMarketOrder(c, s, intent, bar)).Ok?
    ensures var q := ApplyFill(p, ExecuteMarketOrder(c, s, intent, bar)).value;
            && q.MarketValue() == ProposedValue(intent, bar, p) + Moved(s, intent, bar, p)
            && q.Equity() == p.Equity() + EquityChange(c, s, intent, bar, p)
  {
    OrderOutcome(c, s, intent, bar, p);
    assert ProposedValue(intent, bar, p) == p.MarketValue() + ExpectedChange(intent, bar, p);
  }

  /** Whatever portfolio `q` the order led to: its outcome against the limit. */
  lemma CostsTakeRoom(limit: real, c: real, s: real, intent: OrderIntent, bar: Bar, p: Portfolio, q: Portfolio)
    requires q.MarketValue() == ProposedValue(intent, bar, p) + Moved(s, intent, bar, p)
    requires q.Equity() == p.Equity() + EquityChange(c, s, intent, bar, p)
    ensures WithinExposure(limit, q) <==> Strain(limit, c, s, intent, bar, p) <= Room(limit, intent, bar, p)
  {
    WithinLimit(limit, ProposedValue(intent, bar, p), Moved(s, intent, bar, p), p.Equity(),
                EquityChange(c, s, intent, bar, p), q);
  }

  /** The exposure rule and what comes of it, for every order that is filled: at any rates, any
      close and any mark, for buys and sells, it passes exactly when equity is positive and
      there is room, and leaves market value within the limit exactly when it uses up no more
      than that room beyond what the rule expected. */
  lemma ExposureAfterOrder(limit: real, c: real, s: real, intent: OrderIntent, bar: Bar, p: Portfolio, approved: bool)
    requires p.AllLong() && ApplyFill(p, ExecuteMarketOrder(c, s, intent, bar)).Ok?
    ensures Passes(MaxGrossExposureRule(limit), intent, Some(bar), p, approved)
            <==> 0.0 < p.Equity() && 0.0 <= Room(limit, intent, bar, p)
    ensures var q := ApplyFill(p, ExecuteMarketOrder(c, s, intent, bar)).value;
            WithinExposure(limit, q) <==> Strain(limit, c, s, intent, bar, p) <= Room(limit, intent, bar, p)
  {
    RuleLooksForRoom(limit, intent, bar, p, approved);
    OutcomeNextToProposed(c, s, intent, bar, p);
    CostsTakeRoom(limit, c, s, intent, bar, p, ApplyFill(p, ExecuteMarketOrder(c, s, intent, bar)).value);
  }

  // ----- Instruments marked to the close -----

  predicate MarkedAtClose(intent: OrderIntent, bar: Bar, p: Portfolio) {
    intent.instrumentId in p.positions ==> p.positions[intent.instrumentId].marketPrice == bar.close
  }

  /** Then only the costs count: the slippage on all that is held after the order, and on what
      was held before it less the commission. */
  lemma MarkedCosts(c: real, s: real, intent: OrderIntent, bar: Bar, p: Portfolio)
    requires MarkedAtClose(intent, bar, p) && 0 <= HeldAfter(intent, p) && (intent.side.Sell? ==> 0.0 <= bar.close)
    ensures Moved(s, intent, bar, p) == Times(PriceGap(s, intent, bar), HeldAfter(intent, p))
    ensures EquityChange(c, s, intent, bar, p)
         == Times(PriceGap(s, intent, bar), p.Held(intent.instrumentId)) - Commission(c, s, intent, bar)
  {
    var gap, held, left := PriceGap(s, intent, bar), p.Held(intent.instrumentId), HeldAfter(intent, p);
    ValueAfter(p, intent.instrumentId, bar.close, held);
    TimesSplits(bar.close, gap, left, 0);
    TimesSplits(bar.close, gap, held, 0);
    CostsSplit(bar.close, held, left, intent.quantity, intent.side);
    if intent.side.Sell? {
      TimesGrows(bar.close, intent.quantity, held);
    }
  }

  lemma NoCosts(intent: OrderIntent, bar: Bar)
    ensures PriceGap(0.0, intent, bar) == 0.0 && Commission(0.0, 0.0, intent, bar) == 0.0
  {
  }

  lemma NoStrain(limit: real, intent: OrderIntent, bar: Bar, p: Portfolio)
    requires MarkedAtClose(intent, bar, p) && 0 <= HeldAfter(intent, p) && (intent.side.Sell? ==> 0.0 <= bar.close)
    ensures EquityChange(0.0, 0.0, intent, bar, p) == 0.0 && Strain(limit, 0.0, 0.0, intent, bar, p) == 0.0
  {
    MarkedCosts(0.0, 0.0, intent, bar, p);
    NoCosts(intent, bar);
    assert Times(0.0, HeldAfter(intent, p)) == 0.0 && Times(0.0, p.Held(intent.instrumentId)) == 0.0;
  }

  /** Marked to the close and free of costs, the rule foresees the outcome: nothing is used up. */
  lemma ExposureRuleForesees(limit: real, intent: OrderIntent, bar: Bar, p: Portfolio, approved: bool)
    requires p.AllLong() && MarkedAtClose(intent, bar, p) && (intent.side.Sell? ==> 0.0 <= bar.close)
    requires ApplyFill(p, ExecuteMarketOrder(0.0, 0.0, intent, bar)).Ok?
    ensures var q := ApplyFill(p, ExecuteMarketOrder(0.0, 0.0, intent, bar)).value;
            Passes(MaxGrossExposureRule(limit), intent, Some(bar), p, approved)
            <==> 0.0 < q.Equity() && WithinExposure(limit, q)
  {
    FillRefusedExactly(p, ExecuteMarketOrder(0.0, 0.0, intent, bar));
    NoStrain(limit, intent, bar, p);
    ExposureAfterOrder(limit, 0.0, 0.0, intent, bar, p, approved);
    OutcomeNextToProposed(0.0, 0.0, intent, bar, p);
  }

  /** Costs can use up more: at a slippage of 1% an order that passes a limit of one half, with
      no room to spare, ends above it. */
  lemma CostsExceedExposure()
    ensures var intent, bar := OrderIntent(1, Buy, 50), Bar(1, 0, 10.0, 10.0, 10.0, 10.0, 0.0, "none", "feed");
            var p := Portfolio(1000.0, map[], 0.0, None);
            && Passes(MaxGrossExposureRule(0.5), intent, Some(bar), p, true)
            && ApplyFill(p, ExecuteMarketOrder(0.0, 0.01, intent, bar)).Ok?
            && var q := ApplyFill(p, ExecuteMarketOrder(0.0, 0.01, intent, bar)).value;
               !WithinExposure(0.5, q)
  {
    var intent, bar := OrderIntent(1, Buy, 50), Bar(1, 0, 10.0, 10.0, 10.0, 10.0, 0.0, "none", "feed");
    var p := Portfolio(1000.0, map[], 0.0, None);
    assert p.MarketValue() == 0.0;
    var f := ExecuteMarketOrder(0.0, 0.01, intent, bar);
    assert f.price == 10.1 && f.Notional() == 505.0 && f.commission == 0.0;
    var q := ApplyFill(p, f).value;
    ValueSplits(q, 1);
    assert q.positions - {1} == map[];
    assert q.MarketValue() == 505.0 && q.cash == 495.0;
  }
}
