/** backtest/engine.py: the bar-by-bar replay of a strategy. */
module Backtest {
  import opened Wrappers
  import opened Sums
  import opened Models
  import opened Accounting
  import opened Execution
  import opened MACross

  datatype Costs = Costs(commissionRate: real, slippageRate: real)

  /** The order row and the fill row written together for an executed intent. */
  datatype Trade = Trade(fill: Fill, submittedAt: int)

  datatype EquityPoint = EquityPoint(timestamp: int, equity: real, cash: real, marketValue: real, drawdown: real)

  datatype Book = Book(portfolio: Portfolio, trades: seq<Trade>, points: seq<EquityPoint>)

  datatype Summary = Summary(finalEquity: real, equityPoints: int, orderCount: int, fillCount: int)

  function Opening(cash: real): Book {
    Book(Portfolio(cash, map[], 0.0, None), [], [])
  }

  function Execute(costs: Costs, intent: OrderIntent, bar: Bar): Fill {
    ExecuteMarketOrder(costs.commissionRate, costs.slippageRate, intent, bar)
  }

  /** Orders that cannot be paid for are skipped; any other refusal ends the run. */
  function FillIntents(b: Book, intents: seq<OrderIntent>, latest: Bar, costs: Costs): Result<Book, FillError>
    decreases |intents|
  {
    if intents == [] then Ok(b)
    else
      var fill := Execute(costs, intents[0], latest);
      match ApplyFill(b.portfolio, fill)
      case Err(InsufficientCash) => FillIntents(b, intents[1..], latest, costs)
      case Err(e) => Err(e)
      case Ok(p) =>
        FillIntents(b.(portfolio := p, trades := b.trades + [Trade(fill, latest.timestamp)]),
                    intents[1..], latest, costs)
  }

  function PointAt(p: Portfolio, timestamp: int): EquityPoint {
    EquityPoint(timestamp, p.Equity(), p.cash, p.MarketValue(), p.Drawdown())
  }

  function CloseBar(b: Book, latest: Bar): Book {
    var p := Marked(b.portfolio, latest);
    b.(portfolio := p, points := b.points + [PointAt(p, latest.timestamp)])
  }

  /** Replays the bars from position `i`; the strategy sees bars[..i + 1] and nothing later. */
  function RunFrom(b: Book, bars: seq<Bar>, i: nat, strategy: Strategy, costs: Costs): Result<Book, FillError>
    requires i <= |bars|
    decreases |bars| - i
  {
    if i == |bars| then Ok(b)
    else match FillIntents(b, strategy(bars[..i + 1], b.portfolio), bars[i], costs)
      case Err(e) => Err(e)
      case Ok(filled) => RunFrom(CloseBar(filled, bars[i]), bars, i + 1, strategy, costs)
  }

  function Replay(initialCash: real, bars: seq<Bar>, strategy: Strategy, costs: Costs): Result<Book, FillError> {
    RunFrom(Opening(initialCash), bars, 0, strategy, costs)
  }

  /** The engine's loops over bars, intents and held positions. */
  method Run(initialCash: real, bars: seq<Bar>, strategy: Strategy, costs: Costs)
    returns (r: Result<(Book, Summary), FillError>)
    ensures match Replay(initialCash, bars, strategy, costs)
            case Err(e) => r == Err(e)
            case Ok(b) => r == Ok((b, Summary(b.portfolio.Equity(), |bars|, |b.trades|, |b.trades|)))
  {
    var portfolio := Portfolio(initialCash, map[], 0.0, None);
    var trades, points := [], [];
    var orderCount, fillCount := 0, 0;
    for index := 0 to |bars|
      invariant RunFrom(Book(portfolio, trades, points), bars, index, strategy, costs)
             == Replay(initialCash, bars, strategy, costs)
      invariant orderCount == fillCount == |trades|
    {
      var history := bars[..index + 1];
      var latest := history[|history| - 1];
      var intents := strategy(history, portfolio);
      ghost var before := Book(portfolio, trades, points);
      for n := 0 to |intents|
        invariant FillIntents(Book(portfolio, trades, points), intents[n..], latest, costs)
               == FillIntents(before, intents, latest, costs)
        invariant orderCount == fillCount == |trades|
      {
        var fill := Execute(costs, intents[n], latest);
        var applied := ApplyFillToCopy(portfolio, fill);
        assert intents[n..][0] == intents[n] && intents[n..][1..] == intents[n + 1..];
        if applied == Err(InsufficientCash) {
          continue;
        }
        if applied.Err? {
          return Err(applied.error);
        }
        portfolio := applied.value;
        orderCount := orderCount + 1;
        fillCount := fillCount + 1;
        trades := trades + [Trade(fill, latest.timestamp)];
      }
      portfolio := MarkPositions(portfolio, latest);
      points := points + [PointAt(portfolio, latest.timestamp)];
    }
    return Ok((Book(portfolio, trades, points), Summary(portfolio.Equity(), |bars|, orderCount, fillCount)));
  }

  /** The scan over held positions that re-marks the bar's own instrument. */
  method MarkPositions(p: Portfolio, bar: Bar) returns (r: Portfolio)
    ensures r == Marked(p, bar)
  {
    r := p;
    var todo := p.positions.Keys;
    while todo != {}
      invariant todo <= p.positions.Keys
      invariant r == if bar.instrumentId in todo then p else Marked(p, bar)
      decreases |todo|
    {
      var id := Least(todo);
      if id == bar.instrumentId {
        r := r.(positions := r.positions[id := r.positions[id].(marketPrice := bar.close)]);
      }
      todo := todo - {id};
    }
  }

  // ----- No look-ahead -----

  lemma {:induction false} FillIntentsOnlyAppends(b: Book, intents: seq<OrderIntent>, latest: Bar, costs: Costs)
    requires FillIntents(b, intents, latest, costs).Ok?
    ensures var c := FillIntents(b, intents, latest, costs).value;
            && c.points == b.points && b.trades <= c.trades
            && forall k :: |b.trades| <= k < |c.trades| ==> c.trades[k].submittedAt == latest.timestamp
    decreases |intents|
  {
    if intents != [] {
      var fill := Execute(costs, intents[0], latest);
      match ApplyFill(b.portfolio, fill) {
        case Err(_) => FillIntentsOnlyAppends(b, intents[1..], latest, costs);
        case Ok(p) =>
          FillIntentsOnlyAppends(b.(portfolio := p, trades := b.trades + [Trade(fill, latest.timestamp)]),
              intents[1..], latest, costs);
      }
    }
  }

  /** Later bars only add rows, each of them dated by one of those bars. */
  lemma {:induction false} RunOnlyAppends(b: Book, bars: seq<Bar>, i: nat, strategy: Strategy, costs: Costs)
    requires i <= |bars| && RunFrom(b, bars, i, strategy, costs).Ok?
    ensures var c := RunFrom(b, bars, i, strategy, costs).value;
            && b.trades <= c.trades && b.points <= c.points && |c.points| == |b.points| + |bars| - i
            && (forall k :: |b.trades| <= k < |c.trades| ==>
                  exists j :: i <= j < |bars| && c.trades[k].submittedAt == bars[j].timestamp)
            && (forall j :: i <= j < |bars| ==> c.points[|b.points| + j - i].timestamp == bars[j].timestamp)
    decreases |bars| - i
  {
    if i < |bars| {
      var intents := strategy(bars[..i + 1], b.portfolio);
      FillIntentsOnlyAppends(b, intents, bars[i], costs);
      var filled := FillIntents(b, intents, bars[i], costs).value;
      var next := CloseBar(filled, bars[i]);
      RunOnlyAppends(next, bars, i + 1, strategy, costs);
      var c := RunFrom(b, bars, i, strategy, costs).value;
      forall k | |b.trades| <= k < |c.trades|
        ensures exists j :: i <= j < |bars| && c.trades[k].submittedAt == bars[j].timestamp
      {
        if k < |next.trades| {
          assert c.trades[k] == next.trades[k] == filled.trades[k];
        }
      }
      assert c.points[|b.points|] == next.points[|b.points|];
      forall j | i <= j < |bars| ensures c.points[|b.points| + j - i].timestamp == bars[j].timestamp {
        if i < j {
          assert |next.points| + j - (i + 1) == |b.points| + j - i;
        }
      }
    }
  }

  lemma {:induction false} RunSplits(b: Book, bars: seq<Bar>, suffix: seq<Bar>, i: nat, strategy: Strategy,
      costs: Costs)
    requires i <= |bars|
    ensures RunFrom(b, bars + suffix, i, strategy, costs)
         == match RunFrom(b, bars, i, strategy, costs)
            case Err(e) => Err(e)
            case Ok(c) => RunFrom(c, bars + suffix, |bars|, strategy, costs)
    decreases |bars| - i
  {
    if i < |bars| {
      assert (bars + suffix)[..i + 1] == bars[..i + 1] && (bars + suffix)[i] == bars[i];
      match FillIntents(b, strategy(bars[..i + 1], b.portfolio), bars[i], costs) {
        case Err(_) =>
        case Ok(filled) => RunSplits(CloseBar(filled, bars[i]), bars, suffix, i + 1, strategy, costs);
      }
    }
  }

  /** Knowing later bars changes nothing that is decided on the earlier ones: the trades and
      equity points of the short run are the first ones of the long run, and whatever the long
      run adds is dated by an added bar. A run that raises on the short input raises on both. */
  lemma NoLookAhead(initialCash: real, bars: seq<Bar>, suffix: seq<Bar>, strategy: Strategy, costs: Costs)
    ensures Replay(initialCash, bars, strategy, costs).Err? ==>
              Replay(initialCash, bars + suffix, strategy, costs) == Replay(initialCash, bars, strategy, costs)
    ensures Replay(initialCash, bars + suffix, strategy, costs).Ok? ==>
              && Replay(initialCash, bars, strategy, costs).Ok?
              && var long := Replay(initialCash, bars + suffix, strategy, costs).value;
                 var short := Replay(initialCash, bars, strategy, costs).value;
              && short.trades <= long.trades
              && short.points <= long.points && |short.points| == |bars|
              && (forall k :: |short.trades| <= k < |long.trades| ==>
                    exists bar :: bar in suffix && long.trades[k].submittedAt == bar.timestamp)
  {
    RunSplits(Opening(initialCash), bars, suffix, 0, strategy, costs);
    if Replay(initialCash, bars + suffix, strategy, costs).Ok? {
      var short := Replay(initialCash, bars, strategy, costs).value;
      var long := Replay(initialCash, bars + suffix, strategy, costs).value;
      RunOnlyAppends(Opening(initialCash), bars, 0, strategy, costs);
      RunOnlyAppends(short, bars + suffix, |bars|, strategy, costs);
      forall k | |short.trades| <= k < |long.trades|
        ensures exists bar :: bar in suffix && long.trades[k].submittedAt == bar.timestamp
      {
        var j :| |bars| <= j < |bars + suffix| && long.trades[k].submittedAt == (bars + suffix)[j].timestamp;
        assert (bars + suffix)[j] == suffix[j - |bars|];
      }
    }
  }

  // ----- Conservation -----

  lemma {:induction false} FillIntentsConserve(b: Book, intents: seq<OrderIntent>, latest: Bar, costs: Costs)
    requires b.portfolio.AllLong() && FillIntents(b, intents, latest, costs).Ok?
    ensures var c := FillIntents(b, intents, latest, costs).value;
            c.portfolio.AllLong() && c.portfolio.BookValue() == b.portfolio.BookValue()
    decreases |intents|
  {
    if intents != [] {
      var fill := Execute(costs, intents[0], latest);
      match ApplyFill(b.portfolio, fill) {
        case Err(_) => FillIntentsConserve(b, intents[1..], latest, costs);
        case Ok(p) =>
          FillEffect(b.portfolio, fill);
          FillConservesBookValue(b.portfolio, fill);
          FillIntentsConserve(b.(portfolio := p, trades := b.trades + [Trade(fill, latest.timestamp)]), intents[1..],
              latest, costs);
      }
    }
  }

  lemma {:induction false} RunFromConserves(b: Book, bars: seq<Bar>, i: nat, strategy: Strategy, costs: Costs)
    requires i <= |bars| && b.portfolio.AllLong() && RunFrom(b, bars, i, strategy, costs).Ok?
    ensures var p := RunFrom(b, bars, i, strategy, costs).value.portfolio;
            p.AllLong() && p.BookValue() == b.portfolio.BookValue()
    decreases |bars| - i
  {
    if i < |bars| {
      var intents := strategy(bars[..i + 1], b.portfolio);
      FillIntentsConserve(b, intents, bars[i], costs);
      var filled := FillIntents(b, intents, bars[i], costs).value;
      MarkingKeepsBook(filled.portfolio, bars[i]);
      RunFromConserves(CloseBar(filled, bars[i]), bars, i + 1, strategy, costs);
    }
  }

  lemma {:induction false} LastPointShowsPortfolio(b: Book, bars: seq<Bar>, i: nat, strategy: Strategy, costs: Costs)
    requires i < |bars| && RunFrom(b, bars, i, strategy, costs).Ok?
    ensures var c := RunFrom(b, bars, i, strategy, costs).value;
            c.points != [] && c.points[|c.points| - 1] == PointAt(c.portfolio, bars[|bars| - 1].timestamp)
    decreases |bars| - i
  {
    var filled := FillIntents(b, strategy(bars[..i + 1], b.portfolio), bars[i], costs).value;
    if i + 1 < |bars| {
      LastPointShowsPortfolio(CloseBar(filled, bars[i]), bars, i + 1, strategy, costs);
    }
  }

  /** The book after the first `n` bars, and the equity point recorded for the last of them. */
  lemma PointOfPrefix(initialCash: real, bars: seq<Bar>, strategy: Strategy, costs: Costs, n: nat)
    requires n < |bars| && Replay(initialCash, bars, strategy, costs).Ok?
    ensures Replay(initialCash, bars[..n + 1], strategy, costs).Ok?
    ensures n < |Replay(initialCash, bars, strategy, costs).value.points|
    ensures Replay(initialCash, bars, strategy, costs).value.points[n]
         == PointAt(Replay(initialCash, bars[..n + 1], strategy, costs).value.portfolio, bars[n].timestamp)
  {
    assert bars == bars[..n + 1] + bars[n + 1..];
    NoLookAhead(initialCash, bars[..n + 1], bars[n + 1..], strategy, costs);
    LastPointShowsPortfolio(Opening(initialCash), bars[..n + 1], 0, strategy, costs);
  }

  /** In every replay, after every bar: the portfolio's equity, which is the equity recorded
      for that bar, is the initial cash plus its realised and unrealised gains. */
  lemma ReplayConserves(initialCash: real, bars: seq<Bar>, strategy: Strategy, costs: Costs, n: nat)
    requires n < |bars| && Replay(initialCash, bars, strategy, costs).Ok?
    ensures Replay(initialCash, bars[..n + 1], strategy, costs).Ok?
    ensures var p := Replay(initialCash, bars[..n + 1], strategy, costs).value.portfolio;
            var points := Replay(initialCash, bars, strategy, costs).value.points;
            && p.AllLong() && |points| == |bars|
            && points[n].equity == p.Equity() == initialCash + p.realizedPnl + p.UnrealizedPnl()
  {
    PointOfPrefix(initialCash, bars, strategy, costs, n);
    RunOnlyAppends(Opening(initialCash), bars, 0, strategy, costs);
    RunFromConserves(Opening(initialCash), bars[..n + 1], 0, strategy, costs);
    EquityDecomposes(Replay(initialCash, bars[..n + 1], strategy, costs).value.portfolio);
  }

  // ----- Recorded drawdown -----

  lemma MarkedEquity(p: Portfolio, bar: Bar)
    ensures Marked(p, bar).Equity()
         == p.cash + SumBy(p.positions - {bar.instrumentId}, PositionValue) + Times(bar.close, p.Held(bar.instrumentId))
  {
    var q, k := Marked(p, bar), bar.instrumentId;
    SumSplits(q.positions, PositionValue, k);
    assert q.positions - {k} == p.positions - {k};
  }

  /** The drawdown recorded for a bar is negative exactly when a peak was recorded by a fill,
      is positive, and lies below the cash plus the other holdings plus the bar's own holding
      at its close. */
  lemma PointDrawdownSign(b: Book, latest: Bar)
    ensures CloseBar(b, latest).points[|b.points|].drawdown < 0.0 <==>
            var p, k := b.portfolio, latest.instrumentId;
            && p.peakEquity.Some? && 0.0 < p.peakEquity.value
            && p.peakEquity.value < p.cash + SumBy(p.positions - {k}, PositionValue) + Times(latest.close, p.Held(k))
  {
    MarkedEquity(b.portfolio, latest);
    DrawdownSign(Marked(b.portfolio, latest));
  }

  const BUY_BAR := Bar(1, 0, 10.0, 10.0, 10.0, 10.0, 0.0, "none", "feed")

  const RISEN_BAR := Bar(1, 1, 20.0, 20.0, 20.0, 20.0, 0.0, "none", "feed")

  function BuyOnce(history: seq<Bar>, p: Portfolio): seq<OrderIntent> {
    if |history| == 1 then [OrderIntent(1, Buy, 10)] else []
  }

  lemma BoughtAtTen(costs: Costs) returns (bought: Book)
    requires costs == Costs(0.0, 0.0)
    ensures FillIntents(Opening(100.0), [OrderIntent(1, Buy, 10)], BUY_BAR, costs) == Ok(bought)
    ensures bought.points == []
    ensures bought.portfolio == Portfolio(0.0, map[1 := Position(10, 10.0, 10.0)], 0.0, Some(100.0))
  {
    var fill := Execute(costs, OrderIntent(1, Buy, 10), BUY_BAR);
    assert fill.price == 10.0 && fill.Notional() == 100.0 && fill.commission == 0.0;
    var held := map[1 := Position(10, 10.0, 10.0)];
    SumSplits(held, PositionValue, 1);
    assert held - {1} == map[];
    assert [OrderIntent(1, Buy, 10)][1..] == [];
    bought := FillIntents(Opening(100.0), [OrderIntent(1, Buy, 10)], BUY_BAR, costs).value;
  }

  /** With no order on the second bar, the replay closes both bars over what was bought. */
  lemma QuietSecondBar(bars: seq<Bar>, costs: Costs, bought: Book)
    requires bars == [BUY_BAR, RISEN_BAR]
    requires FillIntents(Opening(100.0), [OrderIntent(1, Buy, 10)], BUY_BAR, costs) == Ok(bought)
    ensures Replay(100.0, bars, BuyOnce, costs) == Ok(CloseBar(CloseBar(bought, BUY_BAR), RISEN_BAR))
  {
    var first := CloseBar(bought, BUY_BAR);
    assert |bars[..1]| == 1 && |bars[..2]| == 2;
    assert FillIntents(first, BuyOnce(bars[..2], first.portfolio), RISEN_BAR, costs) == Ok(first);
    assert RunFrom(CloseBar(first, RISEN_BAR), bars, 2, BuyOnce, costs) == Ok(CloseBar(first, RISEN_BAR));
    assert RunFrom(first, bars, 1, BuyOnce, costs) == Ok(CloseBar(first, RISEN_BAR));
  }

  predicate RecordsNegativeDrawdown(b: Book) {
    |b.points| == 2 && b.points[1].drawdown == -1.0
  }

  lemma FirstCloseChangesNothing(bought: Book)
    requires bought.portfolio == Portfolio(0.0, map[1 := Position(10, 10.0, 10.0)], 0.0, Some(100.0))
    ensures CloseBar(bought, BUY_BAR).portfolio == bought.portfolio
  {
    assert Marked(bought.portfolio, BUY_BAR).positions == bought.portfolio.positions;
  }

  lemma RisenPoint(b: Book)
    requires b.portfolio == Portfolio(0.0, map[1 := Position(10, 10.0, 10.0)], 0.0, Some(100.0)) && |b.points| == 1
    ensures RecordsNegativeDrawdown(CloseBar(b, RISEN_BAR))
  {
    MarkedEquity(b.portfolio, RISEN_BAR);
    assert b.portfolio.positions - {1} == map[];
    assert Marked(b.portfolio, RISEN_BAR).Equity() == 200.0;
  }

  /** A replay records one: 10 shares bought at 10 with all the cash, then a close of 20. */
  lemma DrawdownCanBeNegative() returns (bars: seq<Bar>, costs: Costs)
    ensures bars == [BUY_BAR, RISEN_BAR] && costs == Costs(0.0, 0.0)
    ensures Replay(100.0, bars, BuyOnce, costs).Ok?
            && RecordsNegativeDrawdown(Replay(100.0, bars, BuyOnce, costs).value)
  {
    bars, costs := [BUY_BAR, RISEN_BAR], Costs(0.0, 0.0);
    var bought := BoughtAtTen(costs);
    QuietSecondBar(bars, costs, bought);
    FirstCloseChangesNothing(bought);
    RisenPoint(CloseBar(bought, BUY_BAR));
  }

  // ----- MA-cross discipline -----

  /** Filled orders alternate buy, sell, buy, ... of the configured size, and what is held
      is that size after a buy and nothing after a sale. */
  ghost predicate Disciplined(b: Book, size: int, instrumentId: int) {
    && (forall k :: 0 <= k < |b.trades| ==>
          && b.trades[k].fill.side == (if k % 2 == 0 then Buy else Sell)
          && b.trades[k].fill.quantity == size
          && b.trades[k].fill.instrumentId == instrumentId)
    && b.portfolio.positions.Keys == (if |b.trades| % 2 == 0 then {} else {instrumentId})
    && b.portfolio.Held(instrumentId) == (if |b.trades| % 2 == 0 then 0 else size)
  }

  /** The strategy's orders, as far as discipline needs them. */
  predicate FitsHolding(intents: seq<OrderIntent>, p: Portfolio, id: int, size: int) {
    || intents == []
    || (p.Held(id) <= 0 && |intents| == 1 && intents[0].instrumentId == id && intents[0].side.Buy?
        && intents[0].quantity == size)
    || (p.Held(id) > 0 && |intents| == 1 && intents[0].instrumentId == id && intents[0].side.Sell?
        && intents[0].quantity == p.Held(id))
  }

  lemma OrdersFitHolding(s: MACrossStrategy, history: seq<Bar>, p: Portfolio)
    requires history != []
    ensures FitsHolding(OnBar(s, history, p), p, history[|history| - 1].instrumentId, s.orderSize)
  {
  }

  lemma DisciplinedFill(b: Book, intents: seq<OrderIntent>, latest: Bar, costs: Costs, size: Quantity)
    requires Disciplined(b, size, latest.instrumentId)
    requires FitsHolding(intents, b.portfolio, latest.instrumentId, size)
    ensures FillIntents(b, intents, latest, costs).Ok?
    ensures Disciplined(FillIntents(b, intents, latest, costs).value, size, latest.instrumentId)
  {
    if intents != [] {
      assert intents[1..] == [];
      var fill := Execute(costs, intents[0], latest);
      FillRefusedExactly(b.portfolio, fill);
      if ApplyFill(b.portfolio, fill).Ok? {
        FillEffect(b.portfolio, fill);
        var p := ApplyFill(b.portfolio, fill).value;
        assert p.positions.Keys == if fill.side.Buy? then {latest.instrumentId} else {};
      }
    }
  }

  lemma CloseKeepsDiscipline(b: Book, latest: Bar, size: int)
    requires Disciplined(b, size, latest.instrumentId)
    ensures Disciplined(CloseBar(b, latest), size, latest.instrumentId)
  {
  }

  lemma DisciplinedBar(b: Book, intents: seq<OrderIntent>, latest: Bar, costs: Costs, size: Quantity)
    requires Disciplined(b, size, latest.instrumentId)
    requires FitsHolding(intents, b.portfolio, latest.instrumentId, size)
    ensures FillIntents(b, intents, latest, costs).Ok?
    ensures Disciplined(CloseBar(FillIntents(b, intents, latest, costs).value, latest), size, latest.instrumentId)
  {
    DisciplinedFill(b, intents, latest, costs, size);
    CloseKeepsDiscipline(FillIntents(b, intents, latest, costs).value, latest, size);
  }

  /** A moving-average backtest never raises: selling too much is unreachable. */
  lemma {:induction false} MACrossTradeDiscipline(
    b: Book, bars: seq<Bar>, i: nat, s: MACrossStrategy, costs: Costs, instrumentId: int)
    requires i <= |bars| && Disciplined(b, s.orderSize, instrumentId)
    requires forall k :: 0 <= k < |bars| ==> bars[k].instrumentId == instrumentId
    ensures RunFrom(b, bars, i, AsStrategy(s), costs).Ok?
    ensures Disciplined(RunFrom(b, bars, i, AsStrategy(s), costs).value, s.orderSize, instrumentId)
    decreases |bars| - i
  {
    if i < |bars| {
      var intents := AsStrategy(s)(bars[..i + 1], b.portfolio);
      OrdersFitHolding(s, bars[..i + 1], b.portfolio);
      DisciplinedBar(b, intents, bars[i], costs, s.orderSize);
      var closed := CloseBar(FillIntents(b, intents, bars[i], costs).value, bars[i]);
      MACrossTradeDiscipline(closed, bars, i + 1, s, costs, instrumentId);
    }
  }

  /** From the opening book, after every bar. */
  lemma MACrossReplayDisciplined(initialCash: real, bars: seq<Bar>, s: MACrossStrategy, costs: Costs,
      instrumentId: int, n: nat)
    requires n <= |bars| && forall k :: 0 <= k < |bars| ==> bars[k].instrumentId == instrumentId
    ensures Replay(initialCash, bars[..n], AsStrategy(s), costs).Ok?
    ensures Disciplined(Replay(initialCash, bars[..n], AsStrategy(s), costs).value, s.orderSize, instrumentId)
  {
    MACrossTradeDiscipline(Opening(initialCash), bars[..n], 0, s, costs, instrumentId);
  }
}
