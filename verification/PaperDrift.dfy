/** Rounding in a paper account: how far columns of fixed decimals carry the stored value away
    from its exact books. */
module PaperDrift {
  import opened Wrappers
  import opened Sums
  import opened Models
  import opened Accounting
  import opened Execution
  import opened PaperState
  import opened PaperEngine
  import opened PaperRuns
  import opened PaperValue

  // ----- Own-instrument strategies -----

  /** Every order, however many, names the last bar's instrument. */
  ghost predicate OwnOnly(s: Strategy) {
    forall history: seq<Bar>, p: Portfolio {:trigger s(history, p)} :: history != [] ==>
      OnInstrument(s(history, p), history[|history| - 1].instrumentId)
  }

  predicate OnInstrument(intents: seq<OrderIntent>, id: int) {
    forall i :: 0 <= i < |intents| ==> intents[i].instrumentId == id
  }

  ghost predicate AllOwnOnly(cs: seq<Command>)
    decreases |cs|
  {
    cs == [] || ((cs[0].RunTick? ==> OwnOnly(cs[0].request.strategy)) && AllOwnOnly(cs[1..]))
  }

  lemma {:induction false} CarefulIsOwnOnly(cs: seq<Command>)
    requires AllCareful(cs)
    ensures AllOwnOnly(cs)
    decreases |cs|
  {
    if cs != [] {
      CarefulIsOwnOnly(cs[1..]);
    }
  }

  lemma IntentKeepsOthers(t: Tick, q: TickRequest, intent: OrderIntent, latest: Bar, round: Rounding)
    requires ProcessIntent(t, q, intent, latest, round).Ok?
    ensures ProcessIntent(t, q, intent, latest, round).value.portfolio.positions - {intent.instrumentId}
         == t.portfolio.positions - {intent.instrumentId}
  {
  }

  lemma {:induction false} IntentsKeepOthers(
    t: Tick, q: TickRequest, intents: seq<OrderIntent>, latest: Bar, round: Rounding, id: int)
    requires ProcessIntents(t, q, intents, latest, round).Ok? && OnInstrument(intents, id)
    ensures ProcessIntents(t, q, intents, latest, round).value.portfolio.positions - {id}
            == t.portfolio.positions - {id}
    decreases |intents|
  {
    if intents != [] {
      assert intents[0].instrumentId == id;
      IntentKeepsOthers(t, q, intents[0], latest, round);
      IntentsKeepOthers(ProcessIntent(t, q, intents[0], latest, round).value, q, intents[1..], latest, round, id);
    }
  }

  /** A tick of such a strategy leaves the positions of other instruments as they were loaded. */
  lemma TickKeepsOthers(a: Account, bars: seq<Bar>, q: TickRequest, round: Rounding)
    requires RunOneTick(a, bars, q, round).Ok? && !RunOneTick(a, bars, q, round).value.1.noop
    requires OwnOnly(q.strategy)
    ensures var id := bars[|bars| - 1].instrumentId;
            Ended(a, bars, q, round).portfolio.positions - {id} == OpenPositions(a.positions) - {id}
  {
    var latest := bars[|bars| - 1];
    var start := StartTick(a, LoadPortfolio(a).value, latest);
    var id := latest.instrumentId;
    assert start.portfolio.positions - {id} == OpenPositions(a.positions) - {id};
    IntentsKeepOthers(start, q, q.strategy(bars, start.portfolio), latest, round, id);
  }

  // ----- Rounded columns -----

  /** Rows of other instruments store exactly the cost held in memory. */
  lemma OtherRowsUnmoved(rows: map<int, PositionRow>, p: Portfolio, id: int, round: Rounding, k: int)
    requires forall k :: k in rows ==> round(rows[k].avgCost) == rows[k].avgCost
    requires p.positions - {id} == OpenPositions(rows) - {id}
    requires k != id && k in Upserted(rows, p, id, round)
    ensures k in rows
    ensures StoredCost(Upserted(rows, p, id, round)[k]) == CostOf(p, k)
  {
    if k in p.positions {
      assert k in p.positions - {id};
      assert p.positions[k] == (p.positions - {id})[k] == (OpenPositions(rows) - {id})[k];
    }
  }

  lemma OtherCostsUnmoved(rows: map<int, PositionRow>, p: Portfolio, id: int, round: Rounding)
    requires forall k :: k in rows ==> round(rows[k].avgCost) == rows[k].avgCost
    requires p.positions - {id} == OpenPositions(rows) - {id}
    ensures SumBy(Upserted(rows, p, id, round) - {id}, StoredCost) == SumBy(p.positions - {id}, PositionCost)
  {
    var now := Upserted(rows, p, id, round);
    forall k | k in now - {id} ensures StoredCost((now - {id})[k]) == CostOf(p, k) {
      OtherRowsUnmoved(rows, p, id, round, k);
    }
    SumAgree(p.positions - {id}, PositionCost, now - {id}, StoredCost);
  }

  lemma CostDrift(rows: map<int, PositionRow>, p: Portfolio, id: int, round: Rounding, u: real)
    requires Rounds(round, u) && p.AllLong()
    requires forall k :: k in rows ==> round(rows[k].avgCost) == rows[k].avgCost
    requires p.positions - {id} == OpenPositions(rows) - {id}
    ensures Abs(SumBy(Upserted(rows, p, id, round), StoredCost) - SumBy(p.positions, PositionCost))
            <= Times(u, p.Held(id))
  {
    var now := Upserted(rows, p, id, round);
    OtherCostsUnmoved(rows, p, id, round);
    CostSplits(p, id);
    SumSplits(now, StoredCost, id);
    RowCostDrift(rows, p, id, round, u);
  }

  lemma RowCostDrift(rows: map<int, PositionRow>, p: Portfolio, id: int, round: Rounding, u: real)
    requires Rounds(round, u) && p.AllLong()
    ensures var now := Upserted(rows, p, id, round);
            Abs((if id in now then StoredCost(now[id]) else 0.0) - CostOf(p, id)) <= Times(u, p.Held(id))
  {
    if id in p.positions {
      var avg, n := p.positions[id].avgCost, p.positions[id].quantity;
      RoundsAt(round, u, avg);
      TimesSplits(round(avg), avg, n, 0);
      TimesBound(round(avg) - avg, n, u);
    }
  }

  lemma TimesBound(x: real, n: int, u: real)
    requires Abs(x) <= u && 0 <= n
    ensures Abs(Times(x, n)) <= Times(u, n)
  {
    var m := n as real;
    ProductNonNegative(m, u - x);
    ProductNonNegative(m, u + x);
    assert m * (u - x) == m * u - m * x && m * (u + x) == m * u + m * x;
  }

  lemma OtherGainsUnmoved(rows: map<int, PositionRow>, p: Portfolio, id: int, round: Rounding)
    requires forall k :: k in rows ==> round(rows[k].realizedPnl) == rows[k].realizedPnl
    requires p.positions - {id} == OpenPositions(rows) - {id}
    ensures SumBy(Upserted(rows, p, id, round) - {id}, RealizedOf) == SumBy(rows - {id}, RealizedOf)
  {
    var now := Upserted(rows, p, id, round);
    forall k | k in now - {id} ensures k in rows - {id} && RealizedOf(now[k]) == RealizedOf(rows[k]) {
      if k in p.positions {
        assert k in p.positions - {id};
      }
    }
    SumAgree(rows - {id}, RealizedOf, now - {id}, RealizedOf);
  }

  /** The gain a tick books on its own instrument, before rounding. */
  function BookedGain(rows: map<int, PositionRow>, p: Portfolio, id: int): real {
    (if id in rows then rows[id].realizedPnl else 0.0) + RealizedDelta(rows, p)
  }

  lemma GainShift(rows: map<int, PositionRow>, p: Portfolio, id: int, round: Rounding)
    requires !LosesGain(rows, p, id)
    requires SumBy(Upserted(rows, p, id, round) - {id}, RealizedOf) == SumBy(rows - {id}, RealizedOf)
    ensures SumBy(Upserted(rows, p, id, round), RealizedOf) - p.realizedPnl
         == round(BookedGain(rows, p, id)) - BookedGain(rows, p, id)
  {
    SumSplits(Upserted(rows, p, id, round), RealizedOf, id);
    SumSplits(rows, RealizedOf, id);
  }

  lemma GainDrift(rows: map<int, PositionRow>, p: Portfolio, id: int, round: Rounding, u: real)
    requires Rounds(round, u) && !LosesGain(rows, p, id)
    requires forall k :: k in rows ==> round(rows[k].realizedPnl) == rows[k].realizedPnl
    requires p.positions - {id} == OpenPositions(rows) - {id}
    ensures Abs(SumBy(Upserted(rows, p, id, round), RealizedOf) - p.realizedPnl) <= u
  {
    OtherGainsUnmoved(rows, p, id, round);
    GainShift(rows, p, id, round);
    RoundsAt(round, u, BookedGain(rows, p, id));
  }

  /** The stored costs and gains of a portfolio are near the ones in memory. */
  ghost predicate StoredNear(now: map<int, PositionRow>, p: Portfolio, u: real, held: int) {
    && Abs(SumBy(now, StoredCost) - SumBy(p.positions, PositionCost)) <= Times(u, held)
    && Abs(SumBy(now, RealizedOf) - p.realizedPnl) <= u
  }

  lemma NearIsWithin(now: Account, p: Portfolio, round: Rounding, u: real, held: int)
    requires Rounds(round, u) && StoredNear(now.positions, p, u, held)
    requires now.ledger != [] && LatestCash(now) == Some(round(p.cash))
    ensures Abs(StoredValue(now) - p.BookValue()) <= Times(u, held + 2)
  {
    RoundsAt(round, u, p.cash);
    DriftsCombine(p.cash, round(p.cash), SumBy(p.positions, PositionCost), SumBy(now.positions, StoredCost),
                  p.realizedPnl, SumBy(now.positions, RealizedOf), u, held);
  }

  /** What storing the portfolio after a fill changes in the sums. */
  lemma FillDrift(rows: map<int, PositionRow>, p: Portfolio, id: int, round: Rounding, u: real)
    requires Rounds(round, u) && p.AllLong() && !LosesGain(rows, p, id)
    requires forall k :: k in rows ==> round(rows[k].avgCost) == rows[k].avgCost
    requires forall k :: k in rows ==> round(rows[k].realizedPnl) == rows[k].realizedPnl
    requires p.positions - {id} == OpenPositions(rows) - {id}
    ensures StoredNear(Upserted(rows, p, id, round), p, u, p.Held(id))
  {
    CostDrift(rows, p, id, round, u);
    GainDrift(rows, p, id, round, u);
  }

  lemma QuietTickKeepsValue(a: Account, p: Portfolio, latest: Bar, round: Rounding)
    requires WellStored(a, round) && p == Marked(LoadPortfolio(a).value, latest)
    ensures var now := Upserted(a.positions, p, latest.instrumentId, round);
            && SumBy(now, StoredCost) == SumBy(a.positions, StoredCost)
            && SumBy(now, RealizedOf) == SumBy(a.positions, RealizedOf)
  {
    var now := Upserted(a.positions, p, latest.instrumentId, round);
    assert RealizedDelta(a.positions, p) == 0.0;
    forall k | k in a.positions
      ensures k in now && StoredCost(now[k]) == StoredCost(a.positions[k])
      ensures RealizedOf(now[k]) == RealizedOf(a.positions[k])
    {
      assert k in p.positions <==> a.positions[k].quantity != 0;
    }
    forall k | k in now ensures k in a.positions {}
    SumAgree(a.positions, StoredCost, now, StoredCost);
    SumAgree(a.positions, RealizedOf, now, RealizedOf);
  }

  lemma DriftsCombine(cash: real, cash': real, cost: real, cost': real, gain: real, gain': real, u: real, held: int)
    requires Abs(cash' - cash) <= u && Abs(cost' - cost) <= Times(u, held) && Abs(gain' - gain) <= u
    ensures Abs((cash' + cost' - gain') - (cash + cost - gain)) <= Times(u, held + 2)
  {
    TimesAdds(u, held, 2);
  }

  lemma FilledDrift(a: Account, t: Tick, now: Account, latest: Bar, round: Rounding, u: real)
    requires Rounds(round, u) && WellStored(a, round) && Persisted(a, t, now, latest, round) && t.fills != 0
    requires t.portfolio.positions - {latest.instrumentId} == OpenPositions(a.positions) - {latest.instrumentId}
    requires !LosesGain(a.positions, t.portfolio, latest.instrumentId)
    ensures StoredNear(now.positions, t.portfolio, u, t.portfolio.Held(latest.instrumentId))
  {
    FillDrift(a.positions, t.portfolio, latest.instrumentId, round, u);
  }

  /** When the gain is lost only the cash is rounded. */
  lemma LossyDrift(a: Account, t: Tick, now: Account, latest: Bar, round: Rounding, u: real)
    requires Rounds(round, u) && WellStored(a, round) && Persisted(a, t, now, latest, round) && t.fills != 0
    requires t.portfolio.positions - {latest.instrumentId} == OpenPositions(a.positions) - {latest.instrumentId}
    requires LosesGain(a.positions, t.portfolio, latest.instrumentId)
    ensures Abs(StoredValue(now) - (StoredValue(a) + RealizedDelta(a.positions, t.portfolio))) <= u
  {
    var p, id := t.portfolio, latest.instrumentId;
    OtherCostsUnmoved(a.positions, p, id, round);
    OtherGainsUnmoved(a.positions, p, id, round);
    WholeWithout(now.positions, id);
    WholeWithout(a.positions, id);
    assert p.positions - {id} == p.positions;
    RoundsAt(round, u, p.cash);
  }

  lemma WholeWithout(rows: map<int, PositionRow>, id: int)
    requires id !in rows
    ensures rows - {id} == rows
  {
  }

  lemma PersistDrift(a: Account, t: Tick, now: Account, latest: Bar, round: Rounding, u: real, lost: real)
    requires Rounds(round, u) && WellStored(a, round) && Persisted(a, t, now, latest, round)
    requires t.portfolio.positions - {latest.instrumentId} == OpenPositions(a.positions) - {latest.instrumentId}
    requires lost == if LosesGain(a.positions, t.portfolio, latest.instrumentId)
                     then RealizedDelta(a.positions, t.portfolio) else 0.0
    ensures t.fills == 0 ==> StoredValue(now) == StoredValue(a) && lost == 0.0
    ensures t.fills != 0 ==>
              Abs(StoredValue(now) - (StoredValue(a) + lost)) <= Times(u, t.portfolio.Held(latest.instrumentId) + 2)
  {
    if t.fills == 0 {
      QuietTickKeepsValue(a, t.portfolio, latest, round);
    } else if LosesGain(a.positions, t.portfolio, latest.instrumentId) {
      LossyDrift(a, t, now, latest, round, u);
      TimesGrows(u, 1, 2);
      assert Times(u, 1) == u;
    } else {
      FilledDrift(a, t, now, latest, round, u);
      NearIsWithin(now, t.portfolio, round, u, t.portfolio.Held(latest.instrumentId));
    }
  }

  /** One tick, with any number of orders on its own instrument, moves the stored value by the
      gain it loses and by no more than half a unit for the cash, half a unit for the realised
      gain and half a unit for every share held in the end; without a fill it stays put. */
  lemma TickDrift(a: Account, bars: seq<Bar>, q: TickRequest, round: Rounding, u: real)
    requires Rounds(round, u) && WellStored(a, round) && OwnOnly(q.strategy)
    requires RunOneTick(a, bars, q, round).Ok? && !RunOneTick(a, bars, q, round).value.1.noop
    ensures var now, t := RunOneTick(a, bars, q, round).value.0, Ended(a, bars, q, round);
            var lost := LostGain(a, bars, q, round);
            && WellStored(now, round) && |a.fills| <= |now.fills|
            && (|now.fills| == |a.fills| ==> StoredValue(now) == StoredValue(a) && lost == 0.0)
            && (|now.fills| != |a.fills| ==>
                  Abs(StoredValue(now) - (StoredValue(a) + lost))
                  <= Times(u, t.portfolio.Held(bars[|bars| - 1].instrumentId) + 2))
  {
    TickStaysStored(a, bars, q, round, u);
    EndedConserves(a, bars, q, round);
    TickKeepsOthers(a, bars, q, round);
    PersistDrift(a, Ended(a, bars, q, round), RunOneTick(a, bars, q, round).value.0, bars[|bars| - 1], round, u,
                 LostGain(a, bars, q, round));
  }

  ghost predicate AtMost(a: Account, most: nat) {
    forall k :: k in a.positions ==> a.positions[k].quantity <= most
  }

  /** Every state on the way holds at most `most` of anything. */
  ghost predicate HoldsAtMost(w: World, cs: seq<Command>, round: Rounding, most: nat)
    decreases |cs|
  {
    && AtMost(w.account, most)
    && (cs != [] ==> HoldsAtMost(Apply(w, cs[0], round), cs[1..], round, most))
  }

  /** From `a` to `b` the stored value moved by `lost` and at most `per` for each fill between. */
  ghost predicate DriftsAtMost(a: Account, b: Account, lost: real, per: real) {
    && a.ledger != [] && b.ledger != [] && |a.fills| <= |b.fills|
    && Abs(StoredValue(b) - (StoredValue(a) + lost)) <= Times(per, |b.fills| - |a.fills|)
  }

  lemma DriftsAdd(a: Account, b: Account, c: Account, lost: real, more: real, per: real)
    requires DriftsAtMost(a, b, lost, per) && DriftsAtMost(b, c, more, per)
    ensures DriftsAtMost(a, c, lost + more, per)
  {
    TimesAdds(per, |b.fills| - |a.fills|, |c.fills| - |b.fills|);
  }

  /** No fill and no change, or some fills and a change within the holding they end with. */
  lemma DriftsPerFill(a: Account, now: Account, lost: real, held: int, u: real, most: nat)
    requires a.ledger != [] && now.ledger != [] && |a.fills| <= |now.fills| && 0.0 <= u && held <= most
    requires |now.fills| == |a.fills| ==> StoredValue(now) == StoredValue(a) && lost == 0.0
    requires |now.fills| != |a.fills| ==> Abs(StoredValue(now) - (StoredValue(a) + lost)) <= Times(u, held + 2)
    ensures DriftsAtMost(a, now, lost, Times(u, most + 2))
  {
    var per := Times(u, most + 2);
    TimesGrows(u, held + 2, most + 2);
    TimesGrows(u, 0, most + 2);
    assert Times(u, 0) == 0.0 && Times(per, 0) == 0.0 && Times(per, 1) == per;
    if |now.fills| != |a.fills| {
      TimesGrows(per, 1, |now.fills| - |a.fills|);
    }
  }

  lemma TickWithin(a: Account, bars: seq<Bar>, q: TickRequest, round: Rounding, u: real, most: nat)
    requires Rounds(round, u) && WellStored(a, round) && OwnOnly(q.strategy)
    requires RunOneTick(a, bars, q, round).Ok?
    requires AtMost(RunOneTick(a, bars, q, round).value.0, most)
    ensures WellStored(RunOneTick(a, bars, q, round).value.0, round)
    ensures DriftsAtMost(a, RunOneTick(a, bars, q, round).value.0, LostGain(a, bars, q, round), Times(u, most + 2))
  {
    if !RunOneTick(a, bars, q, round).value.1.noop {
      TickDrift(a, bars, q, round, u);
      EndedConserves(a, bars, q, round);
      HeldAtMost(a, Ended(a, bars, q, round), RunOneTick(a, bars, q, round).value.0, bars[|bars| - 1], round, most);
      DriftsPerFill(a, RunOneTick(a, bars, q, round).value.0, LostGain(a, bars, q, round),
                    Ended(a, bars, q, round).portfolio.Held(bars[|bars| - 1].instrumentId), u, most);
    }
  }

  lemma HeldAtMost(a: Account, t: Tick, now: Account, latest: Bar, round: Rounding, most: nat)
    requires Persisted(a, t, now, latest, round) && AtMost(now, most)
    ensures t.portfolio.Held(latest.instrumentId) <= most
  {
    if latest.instrumentId in t.portfolio.positions {
      assert now.positions[latest.instrumentId].quantity == t.portfolio.Held(latest.instrumentId);
    }
  }

  lemma CommandDrift(w: World, c: Command, round: Rounding, u: real, most: nat)
    requires Rounds(round, u) && WellStored(w.account, round)
    requires c.RunTick? ==> OwnOnly(c.request.strategy)
    requires AtMost(Apply(w, c, round).account, most)
    ensures WellStored(Apply(w, c, round).account, round)
    ensures DriftsAtMost(w.account, Apply(w, c, round).account, CommandLoss(w, c, round), Times(u, most + 2))
  {
    if c.RunTick? && RunOneTick(w.account, History(w, c.request.runId), c.request, round).Ok? {
      TickWithin(w.account, History(w, c.request.runId), c.request, round, u, most);
    }
  }

  /** Rounding drift over whole lives of strategies that trade only their run's instrument, any
      number of orders per tick: F fills with holdings never above Q move the stored value by
      the gains lost on the way and by at most F * (Q + 2) half units besides. */
  lemma {:induction false} DriftBound(w: World, cs: seq<Command>, round: Rounding, u: real, most: nat)
    requires Rounds(round, u) && WellStored(w.account, round)
    requires AllOwnOnly(cs)
    requires HoldsAtMost(w, cs, round, most)
    ensures WellStored(Exec(w, cs, round).account, round)
    ensures DriftsAtMost(w.account, Exec(w, cs, round).account, LostGains(w, cs, round), Times(u, most + 2))
    decreases |cs|
  {
    if cs != [] {
      var next := Apply(w, cs[0], round);
      CommandDrift(w, cs[0], round, u, most);
      DriftBound(next, cs[1..], round, u, most);
      DriftsAdd(w.account, next.account, Exec(w, cs, round).account, CommandLoss(w, cs[0], round),
                LostGains(next, cs[1..], round), Times(u, most + 2));
    }
  }

  // ----- When nothing is lost -----

  /** No tick of the life loses a gain or a loss. */
  ghost predicate NothingLost(w: World, cs: seq<Command>, round: Rounding)
    decreases |cs|
  {
    cs == [] || (CommandLoss(w, cs[0], round) == 0.0 && NothingLost(Apply(w, cs[0], round), cs[1..], round))
  }

  lemma {:induction false} NothingLostAddsNothing(w: World, cs: seq<Command>, round: Rounding)
    requires NothingLost(w, cs, round)
    ensures LostGains(w, cs, round) == 0.0
    decreases |cs|
  {
    if cs != [] {
      NothingLostAddsNothing(Apply(w, cs[0], round), cs[1..], round);
    }
  }

  /** A tick loses something exactly when it realised something on an instrument that neither
      had a row before the tick nor is held after it. */
  lemma TickLosesExactly(a: Account, bars: seq<Bar>, q: TickRequest, round: Rounding)
    requires RunOneTick(a, bars, q, round).Ok? && !RunOneTick(a, bars, q, round).value.1.noop
    ensures var p, id := Ended(a, bars, q, round).portfolio, bars[|bars| - 1].instrumentId;
            LostGain(a, bars, q, round) != 0.0 <==>
            id !in a.positions && id !in p.positions && p.realizedPnl != SumBy(a.positions, RealizedOf)
  {
  }

  lemma {:induction false} CarefulLosesNothing(w: World, cs: seq<Command>, round: Rounding, u: real)
    requires Rounds(round, u) && WellStored(w.account, round) && AllCareful(cs)
    ensures NothingLost(w, cs, round)
    decreases |cs|
  {
    if cs != [] {
      CommandStaysStored(w, cs[0], round, u);
      if cs[0].RunTick? {
        var q, bars := cs[0].request, History(w, cs[0].request.runId);
        var r := RunOneTick(w.account, bars, q, round);
        if r.Ok? && !r.value.1.noop {
          CarefulTick(w.account, bars, q, round);
        }
      }
      CarefulLosesNothing(Apply(w, cs[0], round), cs[1..], round, u);
    }
  }

  // ----- Six decimals -----

  /** With 6 decimals the half unit is 0.0000005: rounding onto that grid is idempotent. */
  ghost predicate OnGrid(x: real) {
    (x * 1000000.0).Floor as real == x * 1000000.0
  }

  /** Any rounding to 6 decimals within half a unit. */
  ghost predicate RoundsToSixDecimals(round: Rounding) {
    forall x: real :: OnGrid(round(x)) && Abs(round(x) - x) <= 0.0000005
  }

  lemma SixDecimalsRound(round: Rounding)
    requires RoundsToSixDecimals(round)
    ensures Rounds(round, 0.0000005) && round(0.0) == 0.0
  {
    forall x: real ensures round(round(x)) == round(x) {
      GridFixed(round(round(x)), round(x));
    }
    assert OnGrid(0.0);
    GridFixed(round(0.0), 0.0);
  }

  lemma GridFixed(x: real, y: real)
    requires OnGrid(x) && OnGrid(y) && Abs(x - y) <= 0.0000005
    ensures x == y
  {
    var m, n := (x * 1000000.0).Floor, (y * 1000000.0).Floor;
    assert m as real - n as real == (x - y) * 1000000.0;
    assert (m - n) as real == m as real - n as real;
    assert -1 < m - n < 1;
  }

  // ----- From the deposit on -----

  /** The bound in figures, for strategies that trade only their run's instrument: with columns
      rounded to 6 decimals, after F fills with holdings never above Q the stored value differs
      from the stored deposit plus the lost gains by at most F * (Q + 2) * 0.0000005. A deposit
      of at most 6 decimals is stored unchanged. */
  lemma DriftFromDeposit(initialCash: real, today: int, cs: seq<Command>, round: Rounding, most: nat)
    requires RoundsToSixDecimals(round) && AllOwnOnly(cs)
    requires HoldsAtMost(Fresh(initialCash, today, round), cs, round, most)
    ensures OnGrid(initialCash) ==> round(initialCash) == initialCash
    ensures var w := Fresh(initialCash, today, round);
            var a := Exec(w, cs, round).account;
            && a.ledger != []
            && Abs(StoredValue(a) - (round(initialCash) + LostGains(w, cs, round)))
                 <= Times(Times(0.0000005, most + 2), |a.fills|)
  {
    SixDecimalsRound(round);
    FreshBalanced(initialCash, today, round);
    DriftBound(Fresh(initialCash, today, round), cs, round, 0.0000005, most);
    if OnGrid(initialCash) {
      GridFixed(round(initialCash), initialCash);
    }
  }

  /** If no tick loses a gain, the stored value differs from the deposit by no more than that. */
  lemma DriftWhenNothingLost(initialCash: real, today: int, cs: seq<Command>, round: Rounding, most: nat)
    requires RoundsToSixDecimals(round) && AllOwnOnly(cs)
    requires HoldsAtMost(Fresh(initialCash, today, round), cs, round, most)
    requires NothingLost(Fresh(initialCash, today, round), cs, round)
    ensures var a := Exec(Fresh(initialCash, today, round), cs, round).account;
            a.ledger != [] && Abs(StoredValue(a) - round(initialCash)) <= Times(Times(0.0000005, most + 2), |a.fills|)
  {
    NothingLostAddsNothing(Fresh(initialCash, today, round), cs, round);
    DriftFromDeposit(initialCash, today, cs, round, most);
  }

  /** Strategies with at most one order per tick never lose one. */
  lemma CarefulDrift(initialCash: real, today: int, cs: seq<Command>, round: Rounding, most: nat)
    requires RoundsToSixDecimals(round) && AllCareful(cs)
    requires HoldsAtMost(Fresh(initialCash, today, round), cs, round, most)
    ensures var a := Exec(Fresh(initialCash, today, round), cs, round).account;
            a.ledger != [] && Abs(StoredValue(a) - round(initialCash)) <= Times(Times(0.0000005, most + 2), |a.fills|)
  {
    SixDecimalsRound(round);
    FreshBalanced(initialCash, today, round);
    CarefulIsOwnOnly(cs);
    CarefulLosesNothing(Fresh(initialCash, today, round), cs, round, 0.0000005);
    DriftWhenNothingLost(initialCash, today, cs, round, most);
  }
}
