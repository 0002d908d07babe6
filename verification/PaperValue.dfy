/** Conservation in a paper account: what a tick does to the stored value
    cash + sum(quantity * avg_cost) - realized_pnl, exactly and with rounded columns. */
module PaperValue {
  import opened Wrappers
  import opened Sums
  import opened Models
  import opened Accounting
  import opened Execution
  import opened Risk
  import opened PaperState
  import opened PaperEngine
  import opened PaperRuns

  function StoredValue(a: Account): real
    requires a.ledger != []
  {
    LatestCash(a).value + SumBy(a.positions, StoredCost) - SumBy(a.positions, RealizedOf)
  }

  /** Nearest-value rounding to a grid: never off by more than `u`, and stored values stay. */
  ghost predicate Rounds(round: Rounding, u: real) {
    && 0.0 <= u
    && (forall x: real :: Abs(round(x) - x) <= u)
    && (forall x: real {:trigger round(round(x))} :: round(round(x)) == round(x))
  }

  lemma RoundsAt(round: Rounding, u: real, x: real)
    requires Rounds(round, u)
    ensures Abs(round(x) - x) <= u
  {
  }

  /** What the position table holds is already on the grid, and nothing is held short. */
  ghost predicate WellStored(a: Account, round: Rounding) {
    && a.ledger != []
    && forall k :: k in a.positions ==>
         && 0 <= a.positions[k].quantity
         && round(a.positions[k].avgCost) == a.positions[k].avgCost
         && round(a.positions[k].realizedPnl) == a.positions[k].realizedPnl
  }

  lemma LoadedValue(a: Account)
    requires a.ledger != []
    ensures LoadPortfolio(a).value.BookValue() == StoredValue(a)
  {
    SumAgree(OpenPositions(a.positions), PositionCost, a.positions, StoredCost);
  }

  /** `u` is `t` some intents later: value kept, tables only appended to. */
  ghost predicate Conserved(t: Tick, u: Tick, round: Rounding) {
    && u.portfolio.AllLong()
    && u.portfolio.BookValue() == t.portfolio.BookValue()
    && t.account.ledger <= u.account.ledger && t.account.fills <= u.account.fills
    && u.fills - t.fills == |u.account.fills| - |t.account.fills|
    && (u.fills == t.fills ==> u.portfolio == t.portfolio && u.account.ledger == t.account.ledger)
    && (u.fills != t.fills ==>
          u.account.ledger != [] && u.account.ledger[|u.account.ledger| - 1].cashAfter == round(u.portfolio.cash))
  }

  lemma IntentConserves(t: Tick, q: TickRequest, intent: OrderIntent, latest: Bar, round: Rounding)
    requires t.portfolio.AllLong() && ProcessIntent(t, q, intent, latest, round).Ok?
    ensures Conserved(t, ProcessIntent(t, q, intent, latest, round).value, round)
  {
    var next := ProcessIntent(t, q, intent, latest, round).value;
    if next.fills != t.fills {
      var fill := SubmitOrder(q.broker, intent, latest).value;
      FillEffect(t.portfolio, fill);
      FillConservesBookValue(t.portfolio, fill);
      var booked := FillLedger(fill, t.portfolio.cash, |t.account.fills|, round);
      assert next.account.ledger[|next.account.ledger| - 1] == booked[1];
      assert next.portfolio.cash == t.portfolio.cash + CashFlow(fill);
    }
  }

  lemma {:induction false} IntentsConserve(t: Tick, q: TickRequest, intents: seq<OrderIntent>, latest: Bar,
      round: Rounding)
    requires t.portfolio.AllLong() && ProcessIntents(t, q, intents, latest, round).Ok?
    ensures Conserved(t, ProcessIntents(t, q, intents, latest, round).value, round)
    decreases |intents|
  {
    if intents != [] {
      IntentConserves(t, q, intents[0], latest, round);
      IntentsConserve(ProcessIntent(t, q, intents[0], latest, round).value, q, intents[1..], latest, round);
    }
  }

  /** The last state in memory of a tick that did something. */
  ghost function Ended(a: Account, bars: seq<Bar>, q: TickRequest, round: Rounding): Tick
    requires RunOneTick(a, bars, q, round).Ok? && !RunOneTick(a, bars, q, round).value.1.noop
  {
    var start := StartTick(a, LoadPortfolio(a).value, bars[|bars| - 1]);
    ProcessIntents(start, q, q.strategy(bars, start.portfolio), bars[|bars| - 1], round).value
  }

  /** `now` is what storing the end state `t` of a tick over `a` leaves. */
  ghost predicate Persisted(a: Account, t: Tick, now: Account, latest: Bar, round: Rounding) {
    && a.ledger != [] && now.ledger != []
    && t.portfolio.AllLong() && t.portfolio.BookValue() == StoredValue(a)
    && t.account.positions == a.positions
    && t.fills == |now.fills| - |a.fills| && a.fills <= now.fills
    && (t.fills == 0 ==> now.ledger == a.ledger && t.portfolio == Marked(LoadPortfolio(a).value, latest))
    && (t.fills != 0 ==> LatestCash(now) == Some(round(t.portfolio.cash)))
    && now.positions == Upserted(a.positions, t.portfolio, latest.instrumentId, round)
    && now.ledger == t.account.ledger && now.fills == t.account.fills
  }

  lemma FinishPersists(a: Account, t: Tick, q: TickRequest, latest: Bar, round: Rounding)
    requires a.ledger != [] && Conserved(StartTick(a, LoadPortfolio(a).value, latest), t, round)
    requires t.account.positions == a.positions && q.runId < |t.account.runs|
    ensures Persisted(a, t, FinishTick(t, q, latest, round), latest, round)
  {
    LoadedValue(a);
    MarkingKeepsBook(LoadPortfolio(a).value, latest);
  }

  lemma EndedConserves(a: Account, bars: seq<Bar>, q: TickRequest, round: Rounding)
    requires RunOneTick(a, bars, q, round).Ok? && !RunOneTick(a, bars, q, round).value.1.noop
    requires forall k :: k in a.positions ==> 0 <= a.positions[k].quantity
    ensures Persisted(a, Ended(a, bars, q, round), RunOneTick(a, bars, q, round).value.0, bars[|bars| - 1], round)
  {
    var latest := bars[|bars| - 1];
    var start := StartTick(a, LoadPortfolio(a).value, latest);
    var intents := q.strategy(bars, start.portfolio);
    IntentsConserve(start, q, intents, latest, round);
    IntentsKeepTables(start, q, intents, latest, round);
    FinishPersists(a, Ended(a, bars, q, round), q, latest, round);
  }

  // ----- Exact arithmetic -----

  /** In exact arithmetic a tick keeps the stored value exactly when it realised nothing or
      its instrument has a row to book the gain on; otherwise the value moves by that gain. */
  lemma TickValueExactly(a: Account, bars: seq<Bar>, q: TickRequest, round: Rounding)
    requires Exact(round) && RunOneTick(a, bars, q, round).Ok? && !RunOneTick(a, bars, q, round).value.1.noop
    requires a.ledger != [] && forall k :: k in a.positions ==> 0 <= a.positions[k].quantity
    ensures var now := RunOneTick(a, bars, q, round).value.0;
            var p, id := Ended(a, bars, q, round).portfolio, bars[|bars| - 1].instrumentId;
            && now.ledger != []
            && (StoredValue(now) == StoredValue(a) <==>
                  RealizedDelta(a.positions, p) == 0.0 || !LosesGain(a.positions, p, id))
            && (LosesGain(a.positions, p, id) ==> StoredValue(now) == StoredValue(a) + RealizedDelta(a.positions, p))
  {
    EndedConserves(a, bars, q, round);
    var t := Ended(a, bars, q, round);
    var now, p, id := RunOneTick(a, bars, q, round).value.0, t.portfolio, bars[|bars| - 1].instrumentId;
    PersistLoadRoundTrip(t.account, p, id, round);
    LoadedValue(now);
    assert LoadPortfolio(now) == LoadPortfolio(t.account.(positions := Upserted(a.positions, p, id, round)));
    var loaded := LoadPortfolio(now).value;
    assert loaded.BookValue() == p.BookValue() + (p.realizedPnl - loaded.realizedPnl);
  }

  /** What a tick adds to the stored value by losing it: the gain it realised on an instrument
      that ends without a row. A loss lost is a negative gain. */
  ghost function LostGain(a: Account, bars: seq<Bar>, q: TickRequest, round: Rounding): real {
    var r := RunOneTick(a, bars, q, round);
    if r.Ok? && !r.value.1.noop
       && LosesGain(a.positions, Ended(a, bars, q, round).portfolio, bars[|bars| - 1].instrumentId)
    then RealizedDelta(a.positions, Ended(a, bars, q, round).portfolio)
    else 0.0
  }

  /** The gains lost by all ticks of a life. */
  ghost function LostGains(w: World, cs: seq<Command>, round: Rounding): real
    decreases |cs|
  {
    if cs == [] then 0.0 else CommandLoss(w, cs[0], round) + LostGains(Apply(w, cs[0], round), cs[1..], round)
  }

  ghost function CommandLoss(w: World, c: Command, round: Rounding): real {
    if c.RunTick? then LostGain(w.account, History(w, c.request.runId), c.request, round) else 0.0
  }

  lemma TickStaysStored(a: Account, bars: seq<Bar>, q: TickRequest, round: Rounding, u: real)
    requires Rounds(round, u) && WellStored(a, round)
    requires RunOneTick(a, bars, q, round).Ok? && !RunOneTick(a, bars, q, round).value.1.noop
    ensures WellStored(RunOneTick(a, bars, q, round).value.0, round)
  {
    EndedConserves(a, bars, q, round);
  }

  lemma CommandStaysStored(w: World, c: Command, round: Rounding, u: real)
    requires Rounds(round, u) && WellStored(w.account, round)
    ensures WellStored(Apply(w, c, round).account, round)
  {
    if c.RunTick? {
      var r := RunOneTick(w.account, History(w, c.request.runId), c.request, round);
      if r.Ok? && !r.value.1.noop {
        TickStaysStored(w.account, History(w, c.request.runId), c.request, round, u);
      }
    }
  }

  lemma CommandKeepsBooks(w: World, c: Command, round: Rounding)
    requires Exact(round) && WellStored(w.account, round)
    ensures Apply(w, c, round).account.ledger != []
    ensures StoredValue(Apply(w, c, round).account) == StoredValue(w.account) + CommandLoss(w, c, round)
  {
    CommandStaysStored(w, c, round, 0.0);
    if c.RunTick? {
      var r := RunOneTick(w.account, History(w, c.request.runId), c.request, round);
      if r.Ok? && !r.value.1.noop {
        TickValueExactly(w.account, History(w, c.request.runId), c.request, round);
      }
    }
  }

  /** In exact arithmetic, for any strategies, any number of orders and any instruments: over a
      whole life the stored value moves by the lost gains and by nothing else. */
  lemma {:induction false} BooksMoveByLostGains(w: World, cs: seq<Command>, round: Rounding)
    requires Exact(round) && WellStored(w.account, round)
    ensures WellStored(Exec(w, cs, round).account, round)
    ensures StoredValue(Exec(w, cs, round).account) == StoredValue(w.account) + LostGains(w, cs, round)
    decreases |cs|
  {
    if cs != [] {
      CommandStaysStored(w, cs[0], round, 0.0);
      CommandKeepsBooks(w, cs[0], round);
      BooksMoveByLostGains(Apply(w, cs[0], round), cs[1..], round);
    }
  }

  const BAR := Bar(7, 1, 100.0, 100.0, 100.0, 100.0, 1.0, "qfq", "akshare")

  /** Buys one share and sells it back within the same tick. */
  function RoundTrip(history: seq<Bar>, p: Portfolio): seq<OrderIntent> {
    [OrderIntent(7, Buy, 1), OrderIntent(7, Sell, 1)]
  }

  function RoundTripRequest(): TickRequest {
    TickRequest(0, "round_trip", RoundTrip, true, [PriceSanityRule], Simulated(0.01, 0.0))
  }

  function RoundTripAccount(round: Rounding): Account {
    NewAccount(1000.0, 0, round).(runs := [RunRow(7, "round_trip", true, None)])
  }

  lemma RoundTripLeg(t: Tick, intent: OrderIntent, round: Rounding, after: Portfolio)
    requires ApplyFill(t.portfolio, ExecuteMarketOrder(0.01, 0.0, intent, BAR)) == Ok(after)
    ensures ProcessIntent(t, RoundTripRequest(), intent, BAR, round).Ok?
    ensures var u := ProcessIntent(t, RoundTripRequest(), intent, BAR, round).value;
            u.portfolio == after && u.account.positions == t.account.positions
            && u.account.runs == t.account.runs && u.account.ledger != []
            && u.account.ledger[|u.account.ledger| - 1].cashAfter
               == round(t.portfolio.cash + CashFlow(ExecuteMarketOrder(0.01, 0.0, intent, BAR)))
  {
    var q := RoundTripRequest();
    assert q.rules[1..] == [];
    assert Passes(q.rules[0], intent, Some(BAR), t.portfolio, true);
    assert CheckOrder(q.rules, intent, Some(BAR), t.portfolio, true) == Approved;
    var f := ExecuteMarketOrder(0.01, 0.0, intent, BAR);
    var booked := FillLedger(f, t.portfolio.cash, |t.account.fills|, round);
    var u := ProcessIntent(t, q, intent, BAR, round).value;
    assert u.account.ledger[|u.account.ledger| - 1] == booked[1];
    assert t.portfolio.cash + (if f.side.Buy? then -f.Notional() else f.Notional()) + -f.commission
        == t.portfolio.cash + CashFlow(f);
  }

  lemma BuyLeg()
    ensures var f := ExecuteMarketOrder(0.01, 0.0, OrderIntent(7, Buy, 1), BAR);
            && f.Notional() == 100.0 && f.commission == 1.0
            && var bought := ApplyFill(Portfolio(1000.0, map[], 0.0, None), f);
            && bought.Ok? && bought.value.cash == 899.0 && bought.value.positions == map[7 := Position(1, 101.0, 100.0)]
  {
  }

  lemma SellLeg(p: Portfolio)
    requires p.cash == 899.0 && p.positions == map[7 := Position(1, 101.0, 100.0)]
    ensures var f := ExecuteMarketOrder(0.01, 0.0, OrderIntent(7, Sell, 1), BAR);
            && CashFlow(f) == 99.0
            && var sold := ApplyFill(p, f);
            && sold.Ok? && sold.value.cash == 998.0 && sold.value.positions == map[]
  {
    var f := ExecuteMarketOrder(0.01, 0.0, OrderIntent(7, Sell, 1), BAR);
    assert f.price == 100.0 && f.Notional() == 100.0 && f.commission == 1.0;
    assert p.Held(7) == 1;
    var sold := ApplyFill(p, f);
    assert sold.Ok?;
    assert sold.value.cash == 998.0;
    assert p.positions - {7} == map[];
  }

  /** The gain really can get lost: a strategy that buys and sells back within one tick, on an
      instrument the account never held, costs 2 of cash that no realised loss accounts for. */
  lemma GainCanBeLost(round: Rounding)
    requires Exact(round)
    ensures var a := RoundTripAccount(round);
            && RunOneTick(a, [BAR], RoundTripRequest(), round).Ok?
            && StoredValue(a) == 1000.0
            && var now := RunOneTick(a, [BAR], RoundTripRequest(), round).value.0;
            && now.ledger != [] && StoredValue(now) == 998.0 && SumBy(now.positions, RealizedOf) == 0.0
  {
    var a, q := RoundTripAccount(round), RoundTripRequest();
    var buy, sell := OrderIntent(7, Buy, 1), OrderIntent(7, Sell, 1);
    var start := StartTick(a, LoadPortfolio(a).value, BAR);
    assert start.portfolio == Portfolio(1000.0, map[], 0.0, None);
    BuyLeg();
    var bought := ApplyFill(start.portfolio, ExecuteMarketOrder(0.01, 0.0, buy, BAR)).value;
    SellLeg(bought);
    RoundTripLeg(start, buy, round, bought);
    var held := ProcessIntent(start, q, buy, BAR, round).value;
    var sold := ApplyFill(bought, ExecuteMarketOrder(0.01, 0.0, sell, BAR)).value;
    RoundTripLeg(held, sell, round, sold);
    var done := ProcessIntent(held, q, sell, BAR, round).value;
    assert ProcessIntents(done, q, [], BAR, round) == Ok(done);
    assert [buy, sell][1..] == [sell] && [sell][1..] == [];
    assert ProcessIntents(held, q, [sell], BAR, round) == Ok(done);
    assert ProcessIntents(start, q, [buy, sell], BAR, round) == Ok(done);
    assert q.strategy([BAR], start.portfolio) == [buy, sell];
    assert RunOneTick(a, [BAR], q, round).value.0.positions == map[];
  }

  /** At most one order per bar, on the bar's own instrument. */
  ghost predicate Careful(s: Strategy) {
    forall history: seq<Bar>, p: Portfolio {:trigger s(history, p)} :: history != [] ==>
      && |s(history, p)| <= 1
      && (s(history, p) != [] ==> s(history, p)[0].instrumentId == history[|history| - 1].instrumentId)
  }

  ghost predicate AllCareful(cs: seq<Command>)
    decreases |cs|
  {
    cs == [] || ((cs[0].RunTick? ==> Careful(cs[0].request.strategy)) && AllCareful(cs[1..]))
  }

  /** Such a tick never loses a gain, and touches no other position. */
  lemma CarefulTick(a: Account, bars: seq<Bar>, q: TickRequest, round: Rounding)
    requires RunOneTick(a, bars, q, round).Ok? && !RunOneTick(a, bars, q, round).value.1.noop
    requires Careful(q.strategy) && forall k :: k in a.positions ==> 0 <= a.positions[k].quantity
    ensures var t, id := Ended(a, bars, q, round), bars[|bars| - 1].instrumentId;
            && 0 <= t.fills <= 1
            && t.portfolio.positions - {id} == OpenPositions(a.positions) - {id}
            && (t.fills != 0 ==> !LosesGain(a.positions, t.portfolio, id))
            && (LosesGain(a.positions, t.portfolio, id) ==> RealizedDelta(a.positions, t.portfolio) == 0.0)
  {
    var latest := bars[|bars| - 1];
    var start := StartTick(a, LoadPortfolio(a).value, latest);
    var intents := q.strategy(bars, start.portfolio);
    assert start.portfolio.positions - {latest.instrumentId} == OpenPositions(a.positions) - {latest.instrumentId};
    if intents != [] {
      assert intents[1..] == [];
      var next := ProcessIntent(start, q, intents[0], latest, round).value;
      assert ProcessIntents(next, q, intents[1..], latest, round) == Ok(next);
      assert Ended(a, bars, q, round) == next;
      if next.fills != 0 {
        FillEffect(start.portfolio, SubmitOrder(q.broker, intents[0], latest).value);
      }
    }
  }

  // ----- Conservation over whole lives -----

  ghost predicate SnapshotsBalance(a: Account, deposit: real) {
    forall i :: 0 <= i < |a.snapshots| ==>
      a.snapshots[i].equity == deposit + a.snapshots[i].realizedPnl + a.snapshots[i].unrealizedPnl
  }

  /** The exact books of an account that started with `deposit`. */
  ghost predicate Balanced(a: Account, round: Rounding, deposit: real) {
    WellStored(a, round) && StoredValue(a) == deposit && SnapshotsBalance(a, deposit)
  }

  lemma TickBalances(a: Account, bars: seq<Bar>, q: TickRequest, round: Rounding, deposit: real)
    requires Exact(round) && Balanced(a, round, deposit) && Careful(q.strategy)
    requires RunOneTick(a, bars, q, round).Ok?
    ensures Balanced(RunOneTick(a, bars, q, round).value.0, round, deposit)
  {
    if !RunOneTick(a, bars, q, round).value.1.noop {
      TickStaysStored(a, bars, q, round, 0.0);
      TickValueExactly(a, bars, q, round);
      CarefulTick(a, bars, q, round);
      EndedConserves(a, bars, q, round);
      var p := Ended(a, bars, q, round).portfolio;
      EquityDecomposes(p);
      var start := StartTick(a, LoadPortfolio(a).value, bars[|bars| - 1]);
      IntentsKeepTables(start, q, q.strategy(bars, start.portfolio), bars[|bars| - 1], round);
      assert RunOneTick(a, bars, q, round).value.0.snapshots
          == a.snapshots + [Snapshot(q.runId, bars[|bars| - 1].timestamp, p, round)];
    }
  }

  /** In exact arithmetic the stored value of a careful account is its deposit for ever, and
      every snapshot and every reload balances: equity = deposit + realised + unrealised. */
  lemma {:induction false} PaperConserves(w: World, cs: seq<Command>, round: Rounding, deposit: real)
    requires Exact(round) && Balanced(w.account, round, deposit) && AllCareful(cs)
    ensures Balanced(Exec(w, cs, round).account, round, deposit)
    ensures var p := LoadPortfolio(Exec(w, cs, round).account).value;
            p.Equity() == deposit + p.realizedPnl + p.UnrealizedPnl()
    decreases |cs|
  {
    if cs == [] {
      LoadedValue(w.account);
      EquityDecomposes(LoadPortfolio(w.account).value);
    } else {
      if cs[0].RunTick? && RunOneTick(w.account, History(w, cs[0].request.runId), cs[0].request, round).Ok? {
        TickBalances(w.account, History(w, cs[0].request.runId), cs[0].request, round, deposit);
      }
      PaperConserves(Apply(w, cs[0], round), cs[1..], round, deposit);
    }
  }

  // ----- From the deposit on -----

  lemma FreshBalanced(initialCash: real, today: int, round: Rounding)
    ensures WellStored(NewAccount(initialCash, today, round), round)
    ensures StoredValue(NewAccount(initialCash, today, round)) == round(initialCash)
    ensures SnapshotsBalance(NewAccount(initialCash, today, round), round(initialCash))
  {
  }

  /** In every account that any strategies can reach from a deposit. */
  lemma ReachableBooks(initialCash: real, today: int, cs: seq<Command>, round: Rounding)
    requires Exact(round)
    ensures var w := Fresh(initialCash, today, round);
            var a := Exec(w, cs, round).account;
            a.ledger != [] && StoredValue(a) == initialCash + LostGains(w, cs, round)
  {
    FreshBalanced(initialCash, today, round);
    BooksMoveByLostGains(Fresh(initialCash, today, round), cs, round);
  }

  /** In every account that careful strategies can reach from a deposit: the stored value is
      the deposit, every snapshot balances against it, and so does a reload. */
  lemma ReachablePaperConserves(initialCash: real, today: int, cs: seq<Command>, round: Rounding)
    requires Exact(round) && AllCareful(cs)
    ensures Balanced(Exec(Fresh(initialCash, today, round), cs, round).account, round, initialCash)
    ensures var p := LoadPortfolio(Exec(Fresh(initialCash, today, round), cs, round).account).value;
            p.Equity() == initialCash + p.realizedPnl + p.UnrealizedPnl()
  {
    FreshBalanced(initialCash, today, round);
    PaperConserves(Fresh(initialCash, today, round), cs, round, initialCash);
  }
}
