/** What drawdown a paper account records. The peak is kept in memory during a tick and never
    stored, so a snapshot only knows the peak of its own tick. */
module PaperDrawdown {
  import opened Wrappers
  import opened Sums
  import opened Models
  import opened Accounting
  import opened Execution
  import opened MACross
  import opened PaperState
  import opened PaperEngine
  import opened PaperRuns
  import opened PaperValue
  import opened PaperRefinement

  /** Equity after one intent, if it was filled. */
  function NewEquity(t: Tick, u: Tick): seq<real> {
    if |u.account.fills| != |t.account.fills| then [u.portfolio.Equity()] else []
  }

  /** Equity right after each fill, in order, appended to what is known already. */
  ghost function FillEquities(known: seq<real>, t: Tick, q: TickRequest, intents: seq<OrderIntent>, latest: Bar,
      round: Rounding): seq<real>
    requires ProcessIntents(t, q, intents, latest, round).Ok?
    decreases |intents|
  {
    if intents == [] then known
    else
      var u := ProcessIntent(t, q, intents[0], latest, round).value;
      FillEquities(known + NewEquity(t, u), u, q, intents[1..], latest, round)
  }

  /** `peak` is the highest of the equities if one is positive; otherwise it is not positive. */
  ghost predicate IsPeakOf(peak: real, equities: seq<real>) {
    if exists e :: e in equities && 0.0 < e then peak in equities && forall e :: e in equities ==> e <= peak
    else peak <= 0.0
  }

  /** The portfolio remembers the peak of the fills so far and stands at the last of them. */
  ghost predicate Remembers(p: Portfolio, equities: seq<real>) {
    if equities == [] then p.peakEquity == None
    else p.peakEquity.Some? && p.Equity() == equities[|equities| - 1] && IsPeakOf(p.peakEquity.value, equities)
  }

  lemma FillRemembered(p: Portfolio, f: Fill, equities: seq<real>)
    requires Remembers(p, equities) && ApplyFill(p, f).Ok?
    ensures Remembers(ApplyFill(p, f).value, equities + [ApplyFill(p, f).value.Equity()])
  {
    FillRaisesPeak(p, f);
    PeakExtends(p.peakEquity, equities, ApplyFill(p, f).value.peakEquity.value, ApplyFill(p, f).value.Equity());
  }

  lemma PeakExtends(peak: Option<real>, equities: seq<real>, now: real, equity: real)
    requires if equities == [] then peak == None else peak.Some? && IsPeakOf(peak.value, equities)
    requires now == if peak.None? || peak.value == 0.0 || peak.value < equity then equity else peak.value
    ensures IsPeakOf(now, equities + [equity])
  {
    var all := equities + [equity];
    assert forall e :: e in all <==> e in equities || e == equity;
    if e :| e in equities && 0.0 < e {
      assert e in all;
    }
    if 0.0 < equity {
      assert equity in all;
    }
  }

  lemma IntentRemembered(t: Tick, q: TickRequest, intent: OrderIntent, latest: Bar, round: Rounding,
      equities: seq<real>)
    requires Remembers(t.portfolio, equities) && ProcessIntent(t, q, intent, latest, round).Ok?
    ensures var u := ProcessIntent(t, q, intent, latest, round).value;
            && Remembers(u.portfolio, equities + NewEquity(t, u))
            && |u.account.fills| == |t.account.fills| + |NewEquity(t, u)|
  {
    var u := ProcessIntent(t, q, intent, latest, round).value;
    if |u.account.fills| != |t.account.fills| {
      FillRemembered(t.portfolio, SubmitOrder(q.broker, intent, latest).value, equities);
    } else {
      assert equities + [] == equities;
    }
  }

  lemma {:induction false} IntentsRemembered(
    known: seq<real>, t: Tick, q: TickRequest, intents: seq<OrderIntent>, latest: Bar, round: Rounding)
    requires Remembers(t.portfolio, known) && ProcessIntents(t, q, intents, latest, round).Ok?
    ensures var u := ProcessIntents(t, q, intents, latest, round).value;
            var all := FillEquities(known, t, q, intents, latest, round);
            && Remembers(u.portfolio, all) && |all| <= |known| + |intents|
            && |u.account.fills| - |t.account.fills| == |all| - |known|
    decreases |intents|
  {
    if intents != [] {
      var u := ProcessIntent(t, q, intents[0], latest, round).value;
      IntentRemembered(t, q, intents[0], latest, round, known);
      IntentsRemembered(known + NewEquity(t, u), u, q, intents[1..], latest, round);
    }
  }

  /** Equity right after each fill of a tick. */
  ghost function TickEquities(a: Account, bars: seq<Bar>, q: TickRequest, round: Rounding): seq<real>
    requires RunOneTick(a, bars, q, round).Ok? && !RunOneTick(a, bars, q, round).value.1.noop
  {
    var start := StartTick(a, LoadPortfolio(a).value, bars[|bars| - 1]);
    FillEquities([], start, q, q.strategy(bars, start.portfolio), bars[|bars| - 1], round)
  }

  /** After one of the tick's fills equity was positive and higher than after its last one. */
  ghost predicate FellWithin(equities: seq<real>) {
    equities != [] && exists e :: e in equities && 0.0 < e && equities[|equities| - 1] < e
  }

  lemma RememberedDrawdown(p: Portfolio, equities: seq<real>)
    requires Remembers(p, equities)
    ensures 0.0 <= p.Drawdown()
    ensures p.Drawdown() != 0.0 <==> FellWithin(equities)
  {
    DrawdownSign(p);
    if equities != [] {
      var last := equities[|equities| - 1];
      assert last in equities;
      if 0.0 < p.Peak() {
        QuotientCompares(p.Peak() - p.Equity(), p.Peak(), 0.0);
      }
    }
  }

  /** What the snapshot of a committed tick records, exactly: a drawdown that is never negative
      and is 0 unless, after one of the tick's own fills, equity was positive and higher than
      after its last. That takes two fills at least; what was lost before the tick, or by
      marking to its bar, never shows. */
  lemma TickDrawdownExactly(a: Account, bars: seq<Bar>, q: TickRequest, round: Rounding)
    requires RunOneTick(a, bars, q, round).Ok? && !RunOneTick(a, bars, q, round).value.1.noop
    ensures var now, equities := RunOneTick(a, bars, q, round).value.0, TickEquities(a, bars, q, round);
            var drawdown := Ended(a, bars, q, round).portfolio.Drawdown();
            && |now.snapshots| == |a.snapshots| + 1 && a.snapshots <= now.snapshots
            && now.snapshots[|a.snapshots|].drawdown == round(drawdown) && 0.0 <= drawdown
            && (drawdown != 0.0 <==> FellWithin(equities))
            && |now.fills| == |a.fills| + |equities|
            && (drawdown != 0.0 ==> |a.fills| + 2 <= |now.fills|)
  {
    var latest := bars[|bars| - 1];
    var start := StartTick(a, LoadPortfolio(a).value, latest);
    var intents := q.strategy(bars, start.portfolio);
    IntentsRemembered([], start, q, intents, latest, round);
    IntentsKeepTables(start, q, intents, latest, round);
    var equities := TickEquities(a, bars, q, round);
    RememberedDrawdown(Ended(a, bars, q, round).portfolio, equities);
  }

  // ----- Careful strategies -----

  lemma CarefulTickRecordsNone(a: Account, bars: seq<Bar>, q: TickRequest, round: Rounding)
    requires RunOneTick(a, bars, q, round).Ok? && !RunOneTick(a, bars, q, round).value.1.noop
    requires Careful(q.strategy)
    ensures var now := RunOneTick(a, bars, q, round).value.0;
            && |now.snapshots| == |a.snapshots| + 1 && a.snapshots <= now.snapshots
            && now.snapshots[|a.snapshots|].drawdown == round(0.0)
  {
    var latest := bars[|bars| - 1];
    var start := StartTick(a, LoadPortfolio(a).value, latest);
    IntentsRemembered([], start, q, q.strategy(bars, start.portfolio), latest, round);
    TickDrawdownExactly(a, bars, q, round);
  }

  ghost predicate RecordsNone(a: Account, round: Rounding) {
    forall i :: 0 <= i < |a.snapshots| ==> a.snapshots[i].drawdown == round(0.0)
  }

  lemma {:induction false} CarefulRunsRecordNone(w: World, cs: seq<Command>, round: Rounding)
    requires AllCareful(cs) && RecordsNone(w.account, round)
    ensures RecordsNone(Exec(w, cs, round).account, round)
    decreases |cs|
  {
    if cs != [] {
      if cs[0].RunTick? {
        var q, bars := cs[0].request, History(w, cs[0].request.runId);
        var r := RunOneTick(w.account, bars, q, round);
        if r.Ok? && !r.value.1.noop {
          CarefulTickRecordsNone(w.account, bars, q, round);
        }
      }
      CarefulRunsRecordNone(Apply(w, cs[0], round), cs[1..], round);
    }
  }

  lemma {:induction false} FeedIsCareful(bars: seq<Bar>, q: TickRequest)
    requires Careful(q.strategy)
    ensures AllCareful(Feed(bars, q))
  {
    if bars != [] {
      FeedIsCareful(bars[1..], q);
      var cs := Feed(bars, q);
      assert cs[1..][1..] == Feed(bars[1..], q);
      assert AllCareful(cs[1..]);
    }
  }

  /** A moving-average run never records a drawdown, whatever its prices do. */
  lemma MACrossRecordsNone(initialCash: real, today: int, instrumentId: int, bars: seq<Bar>, q: TickRequest,
      m: MACrossStrategy, round: Rounding)
    requires q.strategy == AsStrategy(m)
    ensures RecordsNone(PaperLife(initialCash, today, instrumentId, bars, q, round).account, round)
  {
    MACrossIsCareful(m);
    FeedIsCareful(bars, q);
    var start := Apply(Fresh(initialCash, today, round), StartRun(instrumentId, q.strategyName), round);
    CarefulRunsRecordNone(start, Feed(bars, q), round);
  }

  // ----- A loss that leaves no trace -----

  function BuyTen(history: seq<Bar>, p: Portfolio): seq<OrderIntent> {
    if |history| == 1 then [OrderIntent(history[0].instrumentId, Buy, 10)] else []
  }

  lemma BuyTenIsCareful()
    ensures Careful(BuyTen)
  {
  }

  ghost predicate BuysTen(q: TickRequest) {
    && q.runId == 0 && q.strategy == BuyTen && q.strategyName == "buy_ten" && q.rules == []
    && q.broker == Simulated(0.0, 0.0)
  }

  predicate BarAt(b: Bar, timestamp: int, close: real) {
    b.instrumentId == 7 && b.timestamp == timestamp && b.close == close
  }

  predicate RunsSince(a: Account, lastProcessedAt: Option<int>) {
    a.runs == [RunRow(7, "buy_ten", true, lastProcessedAt)]
  }

  ghost predicate Opened(a: Account) {
    LatestCash(a) == Some(1000.0) && a.positions == map[] && a.snapshots == [] && RunsSince(a, None)
  }

  predicate HasShares(p: Portfolio, cash: real, quantity: int, price: real) {
    && p.cash == cash && p.realizedPnl == 0.0
    && p.positions.Keys == (if quantity == 0 then {} else {7})
    && (quantity != 0 ==> p.positions[7] == Position(quantity, 100.0, price))
  }

  /** The account after the first tick: ten shares, no cash, worth what was paid for them. */
  ghost predicate Invested(a: Account) {
    && LatestCash(a) == Some(0.0) && |a.snapshots| == 1 && a.snapshots[0].equity == 1000.0 && RunsSince(a, Some(1))
    && a.positions.Keys == {7} && a.positions[7] == PositionRow(10, 100.0, 100.0, 0.0)
  }

  lemma HoldingEquity(p: Portfolio, cash: real, quantity: int, price: real)
    requires HasShares(p, cash, quantity, price)
    ensures p.Equity() == cash + Times(price, quantity)
  {
    SumSplits(p.positions, PositionValue, 7);
    assert (p.positions - {7}).Keys == {};
  }

  lemma TenBought(p: Portfolio, f: Fill)
    requires HasShares(p, 1000.0, 0, 0.0) && f.instrumentId == 7 && f.side == Buy && f.quantity == 10
    requires f.price == 100.0 && f.commission == 0.0
    ensures ApplyFill(p, f).Ok? && HasShares(ApplyFill(p, f).value, 0.0, 10, 100.0)
  {
    assert f.Notional() == 1000.0;
    assert Bought(p, f) == Ok(Position(10, 100.0, 100.0));
  }

  lemma FlatFill(intent: OrderIntent, bar: Bar)
    ensures var f := ExecuteMarketOrder(0.0, 0.0, intent, bar); f.price == bar.close && f.commission == 0.0
  {
    assert bar.close * (1.0 + 0.0) == bar.close && bar.close * (1.0 - 0.0) == bar.close;
  }

  lemma FirstIntent(t: Tick, q: TickRequest, intent: OrderIntent, bar: Bar, round: Rounding)
    requires BuysTen(q) && Exact(round) && BarAt(bar, 1, 100.0) && HasShares(t.portfolio, 1000.0, 0, 0.0)
    requires intent.instrumentId == 7 && intent.side == Buy && intent.quantity == 10
    ensures ProcessIntent(t, q, intent, bar, round).Ok?
    ensures var u := ProcessIntent(t, q, intent, bar, round).value;
            && HasShares(u.portfolio, 0.0, 10, 100.0) && LatestCash(u.account) == Some(0.0)
            && u.account.positions == t.account.positions && u.account.snapshots == t.account.snapshots
            && u.account.runs == t.account.runs
  {
    var f := ExecuteMarketOrder(0.0, 0.0, intent, bar);
    FlatFill(intent, bar);
    TenBought(t.portfolio, f);
    assert SubmitOrder(q.broker, intent, bar) == Some(f);
    assert f.Notional() == 1000.0;
    var booked := FillLedger(f, t.portfolio.cash, |t.account.fills|, round);
    var u := ProcessIntent(t, q, intent, bar, round).value;
    assert u.account.ledger == t.account.ledger + booked;
    assert booked[1].cashAfter == 0.0;
  }

  lemma FirstPersist(t: Tick, q: TickRequest, bar: Bar, round: Rounding)
    requires BuysTen(q) && Exact(round) && BarAt(bar, 1, 100.0) && HasShares(t.portfolio, 0.0, 10, 100.0)
    requires LatestCash(t.account) == Some(0.0) && t.account.positions == map[] && t.account.snapshots == []
    requires RunsSince(t.account, None)
    ensures Invested(FinishTick(t, q, bar, round))
  {
    HoldingEquity(t.portfolio, 0.0, 10, 100.0);
    assert t.account.runs[0 := t.account.runs[0].(lastProcessedAt := Some(1))] == [RunRow(7, "buy_ten", true, Some(1))];
    assert RealizedDelta(t.account.positions, t.portfolio) == 0.0;
  }

  lemma FirstTick(a: Account, bars: seq<Bar>, q: TickRequest, round: Rounding)
    requires BuysTen(q) && Exact(round) && Opened(a) && |bars| == 1 && BarAt(bars[0], 1, 100.0)
    ensures RunOneTick(a, bars, q, round).Ok? && !RunOneTick(a, bars, q, round).value.1.noop
    ensures Invested(RunOneTick(a, bars, q, round).value.0)
  {
    var start := StartTick(a, LoadPortfolio(a).value, bars[0]);
    assert start.portfolio.positions == map[];
    var intents := q.strategy(bars, start.portfolio);
    assert |intents| == 1 && intents[0] == OrderIntent(7, Buy, 10) && intents[1..] == [];
    FirstIntent(start, q, intents[0], bars[0], round);
    var u := ProcessIntent(start, q, intents[0], bars[0], round).value;
    assert ProcessIntents(u, q, intents[1..], bars[0], round) == Ok(u);
    assert ProcessIntents(start, q, intents, bars[0], round) == Ok(u);
    FirstPersist(u, q, bars[0], round);
  }

  lemma SecondTick(a: Account, bars: seq<Bar>, q: TickRequest, round: Rounding)
    requires BuysTen(q) && Exact(round) && Invested(a) && |bars| == 2 && BarAt(bars[1], 2, 50.0)
    ensures RunOneTick(a, bars, q, round).Ok? && !RunOneTick(a, bars, q, round).value.1.noop
    ensures var now := RunOneTick(a, bars, q, round).value.0;
            |now.snapshots| == 2 && now.snapshots[0] == a.snapshots[0] && now.snapshots[1].equity == 500.0
  {
    var start := StartTick(a, LoadPortfolio(a).value, bars[1]);
    SumSplits(a.positions, RealizedOf, 7);
    assert (a.positions - {7}).Keys == {};
    assert HasShares(start.portfolio, 0.0, 10, 50.0);
    HoldingEquity(start.portfolio, 0.0, 10, 50.0);
    assert q.strategy(bars, start.portfolio) == [];
    assert ProcessIntents(start, q, [], bars[1], round) == Ok(start);
  }

  /** The run's history is the stored series. */
  lemma HistoryIsSeries(w: World, bars: seq<Bar>)
    requires w.rows == RowsOf(bars) && Series(bars, 7)
    requires |w.account.runs| == 1 && w.account.runs[0].instrumentId == 7
    ensures History(w, 0) == bars
  {
    SelectedAll(bars, 7);
    SortedStays(bars);
  }

  lemma FirstDay(w: World, q: TickRequest, high: Bar, round: Rounding) returns (v: World)
    requires Exact(round) && BuysTen(q) && w.rows == [] && Opened(w.account) && BarAt(high, 1, 100.0)
    ensures v == Apply(Apply(w, StoreBar(high), round), RunTick(q), round)
    ensures v.rows == RowsOf([high]) && Invested(v.account) && v.account.snapshots[0].drawdown == 0.0
  {
    var bars, stored := [high], Apply(w, StoreBar(high), round);
    NewDateAppends([], high);
    assert stored.rows == RowsOf(bars);
    HistoryIsSeries(stored, bars);
    BuyTenIsCareful();
    FirstTick(stored.account, bars, q, round);
    CarefulTickRecordsNone(stored.account, bars, q, round);
    v := Apply(stored, RunTick(q), round);
  }

  lemma SecondDay(w: World, q: TickRequest, high: Bar, low: Bar, round: Rounding) returns (v: World)
    requires Exact(round) && BuysTen(q) && w.rows == RowsOf([high]) && Invested(w.account)
    requires BarAt(high, 1, 100.0) && BarAt(low, 2, 50.0)
    ensures v == Apply(Apply(w, StoreBar(low), round), RunTick(q), round)
    ensures |v.account.snapshots| == 2 && v.account.snapshots[0] == w.account.snapshots[0]
    ensures v.account.snapshots[1].equity == 500.0 && v.account.snapshots[1].drawdown == 0.0
  {
    var bars, stored := [high, low], Apply(w, StoreBar(low), round);
    NewDateAppends(w.rows, low);
    assert stored.rows == RowsOf(bars);
    HistoryIsSeries(stored, bars);
    BuyTenIsCareful();
    SecondTick(stored.account, bars, q, round);
    CarefulTickRecordsNone(stored.account, bars, q, round);
    v := Apply(stored, RunTick(q), round);
  }

  lemma TwoDays(w: World, q: TickRequest, high: Bar, low: Bar, round: Rounding)
    ensures var first := Apply(Apply(w, StoreBar(high), round), RunTick(q), round);
            Exec(w, Feed([high, low], q), round) == Apply(Apply(first, StoreBar(low), round), RunTick(q), round)
  {
    var bars := [high, low];
    assert bars[0..] == bars && bars[2..] == [];
    ExecOnBar(w, bars, 0, q, round);
    ExecOnBar(Apply(Apply(w, StoreBar(high), round), RunTick(q), round), bars, 1, q, round);
  }

  /** A run of the world from a deposit of 1000: ten shares are bought at the close of 100 of
      the first bar, and the second closes at 50. Half of the money is gone, and both snapshots
      record a drawdown of 0. */
  lemma LossGoesUnrecorded(round: Rounding) returns (high: Bar, low: Bar, q: TickRequest, w: World)
    requires Exact(round)
    ensures high == Bar(7, 1, 100.0, 100.0, 100.0, 100.0, 1.0, "qfq", "akshare")
    ensures low == Bar(7, 2, 50.0, 50.0, 50.0, 50.0, 1.0, "qfq", "akshare")
    ensures q == TickRequest(0, "buy_ten", BuyTen, true, [], Simulated(0.0, 0.0))
    ensures w == PaperLife(1000.0, 0, 7, [high, low], q, round)
    ensures |w.account.snapshots| == 2
    ensures w.account.snapshots[0].equity == 1000.0 && w.account.snapshots[0].drawdown == 0.0
    ensures w.account.snapshots[1].equity == 500.0 && w.account.snapshots[1].drawdown == 0.0
  {
    high := Bar(7, 1, 100.0, 100.0, 100.0, 100.0, 1.0, "qfq", "akshare");
    low := Bar(7, 2, 50.0, 50.0, 50.0, 50.0, 1.0, "qfq", "akshare");
    q := TickRequest(0, "buy_ten", BuyTen, true, [], Simulated(0.0, 0.0));
    var start := Apply(Fresh(1000.0, 0, round), StartRun(7, "buy_ten"), round);
    var first := FirstDay(start, q, high, round);
    w := SecondDay(first, q, high, low, round);
    TwoDays(start, q, high, low, round);
  }
}
