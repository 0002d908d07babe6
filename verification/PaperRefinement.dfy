/** The paper engine, which reloads its portfolio from the tables at every tick, replays the
    in-memory backtest. */
module PaperRefinement {
  import opened Wrappers
  import opened Models
  import opened Accounting
  import opened Execution
  import opened Risk
  import opened MACross
  import opened MarketData
  import opened Backtest
  import opened PaperState
  import opened PaperEngine
  import opened PaperRuns
  import opened PaperValue

  /** Same cash, holdings, average costs and realised gains. Market prices and the peak are
      left out: the paper tables keep the fill price where the backtest re-marks to the close. */
  ghost predicate Alike(p: Portfolio, q: Portfolio) {
    && p.cash == q.cash && p.realizedPnl == q.realizedPnl
    && p.positions.Keys == q.positions.Keys
    && forall k :: k in p.positions ==>
         p.positions[k].quantity == q.positions[k].quantity && p.positions[k].avgCost == q.positions[k].avgCost
  }

  /** The strategy does not look at what `Alike` leaves out. */
  ghost predicate PriceBlind(s: Strategy) {
    forall history: seq<Bar>, p: Portfolio, q: Portfolio {:trigger s(history, p), s(history, q)} ::
      Alike(p, q) ==> s(history, p) == s(history, q)
  }

  lemma MACrossIsCareful(m: MACrossStrategy)
    ensures Careful(AsStrategy(m)) && PriceBlind(AsStrategy(m))
  {
    var s := AsStrategy(m);
    forall history: seq<Bar>, p: Portfolio, q: Portfolio | Alike(p, q) ensures s(history, p) == s(history, q) {
      forall k ensures p.Held(k) == q.Held(k) {}
      assert OnBar(m, history, p) == OnBar(m, history, q);
    }
    forall history: seq<Bar>, p: Portfolio | history != []
      ensures |s(history, p)| <= 1
      ensures s(history, p) != [] ==> s(history, p)[0].instrumentId == history[|history| - 1].instrumentId
    {
      assert s(history, p) == OnBar(m, history, p);
    }
  }

  lemma FillRespectsAlike(p: Portfolio, q: Portfolio, f: Fill)
    requires Alike(p, q)
    ensures ApplyFill(p, f).Ok? <==> ApplyFill(q, f).Ok?
    ensures ApplyFill(p, f).Err? ==> ApplyFill(q, f) == ApplyFill(p, f)
    ensures ApplyFill(p, f).Ok? ==> Alike(ApplyFill(p, f).value, ApplyFill(q, f).value)
  {
  }

  // ----- The history a run is fed -----

  function RowsOf(bars: seq<Bar>): (rows: seq<BarRow>)
    ensures |rows| == |bars|
    ensures forall i :: 0 <= i < |bars| ==> rows[i] == BarRow(KeyOf(bars[i]), QuoteOf(bars[i]))
  {
    seq(|bars|, i requires 0 <= i < |bars| => BarRow(KeyOf(bars[i]), QuoteOf(bars[i])))
  }

  /** One instrument's bars, one per date, oldest first. */
  ghost predicate Series(bars: seq<Bar>, instrumentId: int) {
    StrictlyDateSorted(bars) && forall i :: 0 <= i < |bars| ==> bars[i].instrumentId == instrumentId
  }

  lemma {:induction false} NewDateAppends(rows: seq<BarRow>, bar: Bar)
    requires forall i :: 0 <= i < |rows| ==> rows[i].key.timestamp != bar.timestamp
    ensures Upsert(rows, bar) == rows + [BarRow(KeyOf(bar), QuoteOf(bar))]
  {
    if rows != [] {
      NewDateAppends(rows[1..], bar);
    }
  }

  lemma {:induction false} SelectedAll(bars: seq<Bar>, instrumentId: int)
    requires Series(bars, instrumentId)
    ensures Selected(RowsOf(bars), instrumentId) == bars
  {
    if bars != [] {
      assert RowsOf(bars)[1..] == RowsOf(bars[1..]);
      SelectedAll(bars[1..], instrumentId);
      assert ToBar(RowsOf(bars)[0]) == bars[0];
    }
  }

  lemma {:induction false} SortedStays(bars: seq<Bar>)
    requires StrictlyDateSorted(bars)
    ensures SortByDate(bars) == bars
  {
    if bars != [] {
      SortedStays(bars[1..]);
    }
  }

  // ----- One bar -----

  ghost predicate FreshRun(a: Account, q: TickRequest, instrumentId: int) {
    q.runId < |a.runs| && a.runs[q.runId].instrumentId == instrumentId && a.runs[q.runId].running
    && a.runs[q.runId].strategyName == q.strategyName
  }

  /** With the same intent, an approved paper order and a backtest order end alike. */
  lemma IntentsAlike(t: Tick, b: Book, q: TickRequest, intents: seq<OrderIntent>, latest: Bar, costs: Costs,
      round: Rounding)
    requires Alike(t.portfolio, b.portfolio) && |intents| <= 1
    requires q.broker == Simulated(costs.commissionRate, costs.slippageRate)
    requires FillIntents(b, intents, latest, costs).Ok?
    ensures ProcessIntents(t, q, intents, latest, round).Ok?
    ensures var u := ProcessIntents(t, q, intents, latest, round).value;
            (forall i :: |t.account.decisions| <= i < |u.account.decisions| ==> u.account.decisions[i].Approved?) ==>
              Alike(u.portfolio, FillIntents(b, intents, latest, costs).value.portfolio)
  {
    if intents != [] {
      assert intents[1..] == [];
      var fill := Execute(costs, intents[0], latest);
      FillRespectsAlike(t.portfolio, b.portfolio, fill);
      var next := ProcessIntent(t, q, intents[0], latest, round).value;
      assert ProcessIntents(next, q, intents[1..], latest, round) == Ok(next);
      assert next.account.decisions[|t.account.decisions|]
          == CheckOrder(q.rules, intents[0], Some(latest), t.portfolio, q.approved);
    }
  }

  ghost predicate AllApproved(a: Account) {
    forall i :: 0 <= i < |a.decisions| ==> a.decisions[i].Approved?
  }

  /** The run is due for the last of the bars, and both engines start from like portfolios. */
  ghost predicate Due(a: Account, b: Book, bars: seq<Bar>, q: TickRequest, costs: Costs) {
    && bars != [] && a.ledger != []
    && FreshRun(a, q, bars[|bars| - 1].instrumentId)
    && a.runs[q.runId].lastProcessedAt != Some(bars[|bars| - 1].timestamp)
    && Careful(q.strategy) && PriceBlind(q.strategy)
    && q.broker == Simulated(costs.commissionRate, costs.slippageRate)
    && Alike(LoadPortfolio(a).value, b.portfolio)
    && FillIntents(b, q.strategy(bars, b.portfolio), bars[|bars| - 1], costs).Ok?
  }

  /** What the tick has in memory when it ends. */
  lemma TickEndsAlike(a: Account, b: Book, bars: seq<Bar>, q: TickRequest, costs: Costs, round: Rounding)
    requires Due(a, b, bars, q, costs)
    ensures RunOneTick(a, bars, q, round).Ok? && !RunOneTick(a, bars, q, round).value.1.noop
    ensures AllApproved(RunOneTick(a, bars, q, round).value.0) ==>
              Alike(Ended(a, bars, q, round).portfolio,
                    FillIntents(b, q.strategy(bars, b.portfolio), bars[|bars| - 1], costs).value.portfolio)
  {
    var latest := bars[|bars| - 1];
    var start := StartTick(a, LoadPortfolio(a).value, latest);
    assert Alike(start.portfolio, b.portfolio);
    var intents := q.strategy(bars, b.portfolio);
    assert q.strategy(bars, start.portfolio) == intents;
    IntentsAlike(start, b, q, intents, latest, costs, round);
    IntentsKeepTables(start, q, intents, latest, round);
    assert RunOneTick(a, bars, q, round).value.0.decisions == Ended(a, bars, q, round).account.decisions;
  }

  lemma AlikeAfterClose(p: Portfolio, q: Portfolio, b: Book, latest: Bar)
    requires Alike(p, q) && Alike(q, b.portfolio)
    ensures Alike(p, CloseBar(b, latest).portfolio)
  {
  }

  /** One paper tick on a newer bar does what the backtest does on that bar. */
  lemma TickAlike(a: Account, b: Book, bars: seq<Bar>, q: TickRequest, costs: Costs, round: Rounding)
    requires Exact(round) && WellStored(a, round) && Due(a, b, bars, q, costs)
    ensures RunOneTick(a, bars, q, round).Ok?
    ensures var now := RunOneTick(a, bars, q, round).value.0;
            && WellStored(now, round)
            && now.runs == a.runs[q.runId := a.runs[q.runId].(lastProcessedAt := Some(bars[|bars| - 1].timestamp))]
            && (AllApproved(now) ==>
                  Alike(LoadPortfolio(now).value,
                        CloseBar(FillIntents(b, q.strategy(bars, b.portfolio), bars[|bars| - 1], costs).value,
                            bars[|bars| - 1]).portfolio))
  {
    TickEndsAlike(a, b, bars, q, costs, round);
    TickSettlesOrders(a, bars, q, round);
    TickStaysStored(a, bars, q, round, 0.0);
    StoredAlike(a, bars, q, round);
    var now := RunOneTick(a, bars, q, round).value.0;
    if AllApproved(now) {
      AlikeAfterClose(LoadPortfolio(now).value, Ended(a, bars, q, round).portfolio,
                      FillIntents(b, q.strategy(bars, b.portfolio), bars[|bars| - 1], costs).value, bars[|bars| - 1]);
    }
  }

  /** What a careful tick stored loads back as the portfolio it ended with. */
  lemma StoredAlike(a: Account, bars: seq<Bar>, q: TickRequest, round: Rounding)
    requires Exact(round) && WellStored(a, round) && Careful(q.strategy)
    requires RunOneTick(a, bars, q, round).Ok? && !RunOneTick(a, bars, q, round).value.1.noop
    ensures RunOneTick(a, bars, q, round).value.0.ledger != []
    ensures Alike(LoadPortfolio(RunOneTick(a, bars, q, round).value.0).value, Ended(a, bars, q, round).portfolio)
  {
    EndedConserves(a, bars, q, round);
    CarefulTick(a, bars, q, round);
    var t, now := Ended(a, bars, q, round), RunOneTick(a, bars, q, round).value.0;
    PersistLoadRoundTrip(now.(positions := a.positions), t.portfolio, bars[|bars| - 1].instrumentId, round);
    assert now.(positions := a.positions).(positions := now.positions) == now;
  }

  // ----- All bars -----

  /** Store a bar, tick, store the next bar, tick, and so on. */
  function Feed(bars: seq<Bar>, q: TickRequest): seq<Command> {
    if bars == [] then [] else [StoreBar(bars[0]), RunTick(q)] + Feed(bars[1..], q)
  }

  /** Before bar `i`: the table holds the bars so far and the run has processed them. */
  ghost predicate Caught(w: World, b: Book, bars: seq<Bar>, i: nat, q: TickRequest, instrumentId: int, round: Rounding)
    requires i <= |bars|
  {
    && w.rows == RowsOf(bars[..i]) && WellStored(w.account, round) && FreshRun(w.account, q, instrumentId)
    && w.account.runs[q.runId].lastProcessedAt == (if i == 0 then None else Some(bars[i - 1].timestamp))
    && (AllApproved(w.account) ==> Alike(LoadPortfolio(w.account).value, b.portfolio))
  }

  /** The first bar of a feed is stored and ticked, then the rest is fed. */
  lemma ExecOnBar(w: World, bars: seq<Bar>, i: nat, q: TickRequest, round: Rounding)
    requires i < |bars|
    ensures Exec(w, Feed(bars[i..], q), round)
         == Exec(Apply(Apply(w, StoreBar(bars[i]), round), RunTick(q), round), Feed(bars[i + 1..], q), round)
  {
    var cs := Feed(bars[i..], q);
    assert bars[i..][0] == bars[i] && bars[i..][1..] == bars[i + 1..];
    assert cs[0] == StoreBar(bars[i]) && cs[1..][0] == RunTick(q) && cs[1..][1..] == Feed(bars[i + 1..], q);
  }

  lemma {:induction false} FeedAlike(
    w: World, b: Book, bars: seq<Bar>, i: nat, q: TickRequest, costs: Costs, instrumentId: int, round: Rounding)
    requires i <= |bars| && Series(bars, instrumentId) && Exact(round)
    requires Careful(q.strategy) && PriceBlind(q.strategy)
    requires q.broker == Simulated(costs.commissionRate, costs.slippageRate)
    requires Caught(w, b, bars, i, q, instrumentId, round)
    requires RunFrom(b, bars, i, q.strategy, costs).Ok?
    requires AllApproved(Exec(w, Feed(bars[i..], q), round).account)
    ensures WellStored(Exec(w, Feed(bars[i..], q), round).account, round)
    ensures Alike(LoadPortfolio(Exec(w, Feed(bars[i..], q), round).account).value,
                  RunFrom(b, bars, i, q.strategy, costs).value.portfolio)
    decreases |bars| - i
  {
    DecisionsOnlyGrow(w, Feed(bars[i..], q), round);
    if i < |bars| {
      var stored, ticked := StepOnBar(w, b, bars, i, q, costs, instrumentId, round);
      ExecOnBar(w, bars, i, q, round);
      var filled := FillIntents(b, q.strategy(bars[..i + 1], b.portfolio), bars[i], costs).value;
      FeedAlike(ticked, CloseBar(filled, bars[i]), bars, i + 1, q, costs, instrumentId, round);
    }
  }

  lemma StepOnBar(w: World, b: Book, bars: seq<Bar>, i: nat, q: TickRequest, costs: Costs, instrumentId: int,
      round: Rounding)
    returns (stored: World, ticked: World)
    requires i < |bars| && Series(bars, instrumentId) && Exact(round)
    requires Careful(q.strategy) && PriceBlind(q.strategy)
    requires q.broker == Simulated(costs.commissionRate, costs.slippageRate)
    requires Caught(w, b, bars, i, q, instrumentId, round)
    requires AllApproved(w.account)
    requires FillIntents(b, q.strategy(bars[..i + 1], b.portfolio), bars[i], costs).Ok?
    ensures stored == Apply(w, StoreBar(bars[i]), round) && ticked == Apply(stored, RunTick(q), round)
    ensures Caught(ticked,
            CloseBar(FillIntents(b, q.strategy(bars[..i + 1], b.portfolio), bars[i], costs).value, bars[i]),
                   bars, i + 1, q, instrumentId, round)
  {
    var history := bars[..i + 1];
    stored := Apply(w, StoreBar(bars[i]), round);
    ticked := Apply(stored, RunTick(q), round);
    NewDateAppends(w.rows, bars[i]);
    assert stored.rows == RowsOf(history);
    SelectedAll(history, instrumentId);
    SortedStays(history);
    assert History(stored, q.runId) == history && history[|history| - 1] == bars[i];
    TickAlike(w.account, b, history, q, costs, round);
  }

  lemma {:induction false} DecisionsOnlyGrow(w: World, cs: seq<Command>, round: Rounding)
    ensures w.account.decisions <= Exec(w, cs, round).account.decisions
    decreases |cs|
  {
    if cs != [] {
      if cs[0].RunTick? && RunOneTick(w.account, History(w, cs[0].request.runId), cs[0].request, round).Ok? {
        TickSettlesOrders(w.account, History(w, cs[0].request.runId), cs[0].request, round);
      }
      DecisionsOnlyGrow(Apply(w, cs[0], round), cs[1..], round);
    }
  }

  /** The life of one run on a fresh account that is ticked after every stored bar. */
  function PaperLife(initialCash: real, today: int, instrumentId: int, bars: seq<Bar>, q: TickRequest,
      round: Rounding): World
  {
    Exec(Apply(Fresh(initialCash, today, round), StartRun(instrumentId, q.strategyName), round), Feed(bars, q), round)
  }

  lemma LifeEndsAlike(
    initialCash: real, today: int, instrumentId: int, bars: seq<Bar>, q: TickRequest, costs: Costs, round: Rounding)
    requires Exact(round) && Series(bars, instrumentId) && q.runId == 0
    requires Careful(q.strategy) && PriceBlind(q.strategy)
    requires q.broker == Simulated(costs.commissionRate, costs.slippageRate)
    requires Replay(initialCash, bars, q.strategy, costs).Ok?
    requires AllApproved(PaperLife(initialCash, today, instrumentId, bars, q, round).account)
    ensures PaperLife(initialCash, today, instrumentId, bars, q, round).account.ledger != []
    ensures Alike(LoadPortfolio(PaperLife(initialCash, today, instrumentId, bars, q, round).account).value,
                  Replay(initialCash, bars, q.strategy, costs).value.portfolio)
  {
    var w := Apply(Fresh(initialCash, today, round), StartRun(instrumentId, q.strategyName), round);
    assert bars[0..] == bars;
    assert Caught(w, Opening(initialCash), bars, 0, q, instrumentId, round);
    FeedAlike(w, Opening(initialCash), bars, 0, q, costs, instrumentId, round);
  }

  lemma {:induction false} FeedSplits(bars: seq<Bar>, n: nat, q: TickRequest)
    requires n <= |bars|
    ensures Feed(bars, q) == Feed(bars[..n], q) + Feed(bars[n..], q)
    decreases n
  {
    if n != 0 {
      FeedSplits(bars[1..], n - 1, q);
      assert bars[..n][0] == bars[0] && bars[..n][1..] == bars[1..][..n - 1] && bars[1..][n - 1..] == bars[n..];
    } else {
      assert bars[0..] == bars && Feed(bars[..0], q) == [];
    }
  }

  lemma {:induction false} ExecSplits(w: World, cs: seq<Command>, more: seq<Command>, round: Rounding)
    ensures Exec(w, cs + more, round) == Exec(Exec(w, cs, round), more, round)
    decreases |cs|
  {
    if cs == [] {
      assert cs + more == more;
    } else {
      assert (cs + more)[0] == cs[0] && (cs + more)[1..] == cs[1..] + more;
      ExecSplits(Apply(w, cs[0], round), cs[1..], more, round);
    }
  }

  /** What risk approved over a life, it approved in every part of it. */
  lemma PrefixApproved(initialCash: real, today: int, instrumentId: int, bars: seq<Bar>, q: TickRequest,
      round: Rounding, n: nat)
    requires n <= |bars| && AllApproved(PaperLife(initialCash, today, instrumentId, bars, q, round).account)
    ensures AllApproved(PaperLife(initialCash, today, instrumentId, bars[..n], q, round).account)
  {
    var w := Apply(Fresh(initialCash, today, round), StartRun(instrumentId, q.strategyName), round);
    FeedSplits(bars, n, q);
    ExecSplits(w, Feed(bars[..n], q), Feed(bars[n..], q), round);
    DecisionsOnlyGrow(Exec(w, Feed(bars[..n], q), round), Feed(bars[n..], q), round);
  }

  /** The account after the first `n` bars agrees with the replay of those bars. */
  ghost predicate AgreesAfter(
    initialCash: real, today: int, instrumentId: int, bars: seq<Bar>, q: TickRequest, costs: Costs,
    round: Rounding, n: nat)
    requires n <= |bars|
  {
    var a := PaperLife(initialCash, today, instrumentId, bars[..n], q, round).account;
    var r := Replay(initialCash, bars[..n], q.strategy, costs);
    a.ledger != [] && r.Ok? && Alike(LoadPortfolio(a).value, r.value.portfolio)
  }

  /** Paper trading refines the backtest: if risk approves every order, the account reloads
      after every bar with the cash, holdings, average costs and realised gains of the replay. */
  lemma PaperRefinesBacktest(
    initialCash: real, today: int, instrumentId: int, bars: seq<Bar>, q: TickRequest, costs: Costs, round: Rounding)
    requires Exact(round) && Series(bars, instrumentId) && q.runId == 0
    requires Careful(q.strategy) && PriceBlind(q.strategy)
    requires q.broker == Simulated(costs.commissionRate, costs.slippageRate)
    requires Replay(initialCash, bars, q.strategy, costs).Ok?
    requires AllApproved(PaperLife(initialCash, today, instrumentId, bars, q, round).account)
    ensures forall n: nat | n <= |bars| :: AgreesAfter(initialCash, today, instrumentId, bars, q, costs, round, n)
  {
    forall n: nat | n <= |bars| ensures AgreesAfter(initialCash, today, instrumentId, bars, q, costs, round, n) {
      PrefixApproved(initialCash, today, instrumentId, bars, q, round, n);
      assert bars == bars[..n] + bars[n..];
      NoLookAhead(initialCash, bars[..n], bars[n..], q.strategy, costs);
      LifeEndsAlike(initialCash, today, instrumentId, bars[..n], q, costs, round);
    }
  }

  /** For the moving-average strategy the backtest never raises, so nothing else is assumed. */
  lemma MACrossPaperRefinesBacktest(
    initialCash: real, today: int, instrumentId: int, bars: seq<Bar>, q: TickRequest, m: MACrossStrategy,
    costs: Costs, round: Rounding)
    requires Exact(round) && Series(bars, instrumentId) && q.runId == 0
    requires q.strategy == AsStrategy(m) && q.broker == Simulated(costs.commissionRate, costs.slippageRate)
    requires AllApproved(PaperLife(initialCash, today, instrumentId, bars, q, round).account)
    ensures forall n: nat | n <= |bars| :: AgreesAfter(initialCash, today, instrumentId, bars, q, costs, round, n)
  {
    MACrossIsCareful(m);
    MACrossTradeDiscipline(Opening(initialCash), bars, 0, m, costs, instrumentId);
    PaperRefinesBacktest(initialCash, today, instrumentId, bars, q, costs, round);
  }
}
