/** paper/engine.py: one tick of one run, and the tables it writes. */
module PaperEngine {
  import opened Wrappers
  import opened Sums
  import opened Models
  import opened Accounting
  import opened Execution
  import opened Risk
  import opened PaperState

  datatype TickError =
    | RunNotFound | RunNotRunning | StrategyMismatch | NoBars | LedgerMissing
    | FillRefused(reason: FillError)

  /** The caller's side of a tick: which run, with which strategy, checks and broker. */
  datatype TickRequest = TickRequest(
    runId: nat, strategyName: string, strategy: Strategy, approved: bool, rules: seq<RiskRule>, broker: Broker)

  datatype TickSummary = TickSummary(
    processedAt: int, ordersCreated: int, ordersFilled: int, ordersRejected: int, fillsCreated: int,
    snapshotCreated: bool, riskDecisions: int, noop: bool)

  /** The tables, the portfolio in memory and the counters, part way through a tick. */
  datatype Tick = Tick(
    account: Account, portfolio: Portfolio,
    created: int, filled: int, rejected: int, fills: int, decided: int)

  function Ordered(t: Tick, q: TickRequest, intent: OrderIntent, latest: Bar, status: OrderStatus,
      decision: Decision): Tick
  {
    t.(account := t.account.(
         orders := t.account.orders + [OrderRow(q.runId, intent, status, latest.timestamp)],
         decisions := t.account.decisions + [decision]),
       created := t.created + 1,
       decided := t.decided + 1)
  }

  function Booked(t: Tick, q: TickRequest, fill: Fill, after: Portfolio, orderId: int, round: Rounding): Tick {
    t.(account := t.account.(
         fills := t.account.fills + [FillRow(q.runId, orderId, StoredFill(fill, round))],
         ledger := t.account.ledger + FillLedger(fill, t.portfolio.cash, |t.account.fills|, round)),
       portfolio := after,
       filled := t.filled + 1,
       fills := t.fills + 1)
  }

  function ProcessIntent(t: Tick, q: TickRequest, intent: OrderIntent, latest: Bar,
      round: Rounding): Result<Tick, TickError>
  {
    var decision := CheckOrder(q.rules, intent, Some(latest), t.portfolio, q.approved);
    if decision.Rejected? then
      var u := Ordered(t, q, intent, latest, RiskRejected, decision);
      Ok(u.(rejected := u.rejected + 1))
    else match SubmitOrder(q.broker, intent, latest)
      case None => Ok(Ordered(t, q, intent, latest, Skipped, decision))
      case Some(fill) =>
        match ApplyFill(t.portfolio, fill)
        case Err(InsufficientCash) => Ok(Ordered(t, q, intent, latest, Skipped, decision))
        case Err(e) => Err(FillRefused(e))
        case Ok(after) =>
          Ok(Booked(Ordered(t, q, intent, latest, Filled, decision), q, fill, after, |t.account.orders|, round))
  }

  function ProcessIntents(t: Tick, q: TickRequest, intents: seq<OrderIntent>, latest: Bar,
      round: Rounding): Result<Tick, TickError>
    decreases |intents|
  {
    if intents == [] then Ok(t)
    else match ProcessIntent(t, q, intents[0], latest, round)
      case Err(e) => Err(e)
      case Ok(u) => ProcessIntents(u, q, intents[1..], latest, round)
  }

  /** The portfolio as the strategy sees it: the bar's own position is marked to its close. */
  function StartTick(a: Account, p: Portfolio, latest: Bar): Tick {
    Tick(a, Marked(p, latest), 0, 0, 0, 0, 0)
  }

  function FinishTick(t: Tick, q: TickRequest, latest: Bar, round: Rounding): Account
    requires q.runId < |t.account.runs|
  {
    t.account.(
      positions := Upserted(t.account.positions, t.portfolio, latest.instrumentId, round),
      snapshots := t.account.snapshots + [Snapshot(q.runId, latest.timestamp, t.portfolio, round)],
      runs := t.account.runs[q.runId := t.account.runs[q.runId].(lastProcessedAt := Some(latest.timestamp))])
  }

  lemma {:induction false} IntentsKeepTables(t: Tick, q: TickRequest, intents: seq<OrderIntent>, latest: Bar,
      round: Rounding)
    requires ProcessIntents(t, q, intents, latest, round).Ok?
    ensures var u := ProcessIntents(t, q, intents, latest, round).value.account;
            && u.runs == t.account.runs && u.positions == t.account.positions && u.snapshots == t.account.snapshots
            && t.account.decisions <= u.decisions && t.account.orders <= u.orders
    decreases |intents|
  {
    if intents != [] {
      IntentsKeepTables(ProcessIntent(t, q, intents[0], latest, round).value, q, intents[1..], latest, round);
    }
  }

  /** The first failing check decides the error; a bar already processed changes nothing. */
  function RunOneTick(a: Account, bars: seq<Bar>, q: TickRequest, round: Rounding)
    : Result<(Account, TickSummary), TickError>
  {
    if |a.runs| <= q.runId then Err(RunNotFound)
    else if !a.runs[q.runId].running then Err(RunNotRunning)
    else if a.runs[q.runId].strategyName != q.strategyName then Err(StrategyMismatch)
    else if bars == [] then Err(NoBars)
    else
      var latest := bars[|bars| - 1];
      if a.runs[q.runId].lastProcessedAt == Some(latest.timestamp) then
        Ok((a, TickSummary(latest.timestamp, 0, 0, 0, 0, false, 0, true)))
      else match LoadPortfolio(a)
        case None => Err(LedgerMissing)
        case Some(loaded) =>
          var start := StartTick(a, loaded, latest);
          match ProcessIntents(start, q, q.strategy(bars, start.portfolio), latest, round)
          case Err(e) => Err(e)
          case Ok(t) =>
            IntentsKeepTables(start, q, q.strategy(bars, start.portfolio), latest, round);
            Ok((FinishTick(t, q, latest, round),
                TickSummary(latest.timestamp, t.created, t.filled, t.rejected, t.fills, true, t.decided, false)))
  }

  method WriteHeld(existing: map<int, PositionRow>, held: map<int, Position>, delta: real, tradedId: int,
      round: Rounding)
    returns (rows: map<int, PositionRow>)
    ensures forall k :: k in rows <==> k in existing || k in held
    ensures forall k :: k in held ==> rows[k] == UpsertedRow(existing, held, delta, tradedId, k, round)
    ensures forall k :: k in existing && k !in held ==> rows[k] == existing[k]
  {
    rows := existing;
    var todo := held.Keys;
    while todo != {}
      invariant todo <= held.Keys
      invariant forall k :: k in rows ==> k in existing || k in held
      invariant forall k :: k in existing ==> k in rows
      invariant forall k :: k in held && k !in todo ==>
                  k in rows && rows[k] == UpsertedRow(existing, held, delta, tradedId, k, round)
      invariant forall k :: k in existing && k !in held ==> rows[k] == existing[k]
      decreases |todo|
    {
      var k := Least(todo);
      var realized := if k in existing then existing[k].realizedPnl else 0.0;
      if k == tradedId {
        realized := realized + delta;
      }
      rows := rows[k := PositionRow(held[k].quantity, round(held[k].avgCost), round(held[k].marketPrice),
          round(realized))];
      todo := todo - {k};
    }
  }

  method EmptyOthers(existing: map<int, PositionRow>, written: map<int, PositionRow>, held: map<int, Position>,
                     delta: real, tradedId: int, round: Rounding)
    returns (rows: map<int, PositionRow>)
    requires forall k :: k in existing ==> k in written
    requires forall k :: k in existing && k !in held ==> written[k] == existing[k]
    ensures forall k :: k in rows <==> k in written
    ensures forall k :: k in rows && !(k in existing && k !in held) ==> rows[k] == written[k]
    ensures forall k | k in existing && k !in held ::
              rows[k] == UpsertedRow(existing, held, delta, tradedId, k, round)
  {
    rows := written;
    var todo := existing.Keys;
    while todo != {}
      invariant todo <= existing.Keys
      invariant forall k :: k in rows <==> k in written
      invariant forall k :: k in rows && !(k in existing && k !in held && k !in todo) ==> rows[k] == written[k]
      invariant forall k :: k in existing && k !in held && k !in todo ==>
                  rows[k] == UpsertedRow(existing, held, delta, tradedId, k, round)
      decreases |todo|
    {
      var k := Least(todo);
      if k !in held {
        var row := rows[k];
        row := row.(quantity := 0);
        row := row.(marketPrice := round(0.0));
        row := row.(realizedPnl := round(if k == tradedId then row.realizedPnl + delta else row.realizedPnl));
        rows := rows[k := row];
      }
      todo := todo - {k};
    }
  }

  lemma RowsDetermined(rows: map<int, PositionRow>, existing: map<int, PositionRow>, held: map<int, Position>,
                       delta: real, tradedId: int, round: Rounding)
    requires forall k :: k in rows <==> k in existing || k in held
    requires forall k :: k in rows ==> rows[k] == UpsertedRow(existing, held, delta, tradedId, k, round)
    ensures rows == UpsertedRows(existing, held, delta, tradedId, round)
  {
  }

  method UpsertRows(existing: map<int, PositionRow>, held: map<int, Position>, delta: real, tradedId: int,
      round: Rounding)
    returns (rows: map<int, PositionRow>)
    ensures rows == UpsertedRows(existing, held, delta, tradedId, round)
  {
    var written := WriteHeld(existing, held, delta, tradedId, round);
    rows := EmptyOthers(existing, written, held, delta, tradedId, round);
    RowsDetermined(rows, existing, held, delta, tradedId, round);
  }

  /** The paper tables of one account, updated row by row inside one session. */
  class PaperTradingEngine {
    var ledger: seq<LedgerRow>
    var positions: map<int, PositionRow>
    var orders: seq<OrderRow>
    var fills: seq<FillRow>
    var decisions: seq<Decision>
    var snapshots: seq<SnapshotRow>
    var runs: seq<RunRow>
    const round: Rounding

    function State(): Account
      reads this
    {
      Account(ledger, positions, orders, fills, decisions, snapshots, runs)
    }

    constructor CreateAccount(initialCash: real, today: int, round: Rounding)
      ensures this.round == round && State() == NewAccount(initialCash, today, round)
    {
      this.round := round;
      positions, orders, fills, decisions, snapshots, runs := map[], [], [], [], [], [];
      ledger := [LedgerRow(InitialDeposit, round(initialCash), round(initialCash), None, today)];
    }

    method StartRun(instrumentId: int, strategyName: string) returns (runId: nat)
      modifies this`runs
      ensures runId == |old(runs)|
      ensures State() == old(State()).(runs := old(runs) + [RunRow(instrumentId, strategyName, true, None)])
    {
      runId := |runs|;
      runs := runs + [RunRow(instrumentId, strategyName, true, None)];
    }

    method Rollback(saved: Account)
      modifies this
      ensures State() == saved
    {
      ledger, positions, orders, fills := saved.ledger, saved.positions, saved.orders, saved.fills;
      decisions, snapshots, runs := saved.decisions, saved.snapshots, saved.runs;
    }

    method CreateOrder(runId: int, intent: OrderIntent, submittedAt: int) returns (orderId: nat)
      modifies this`orders
      ensures orderId == |old(orders)| && orders == old(orders) + [OrderRow(runId, intent, Created, submittedAt)]
    {
      orderId := |orders|;
      orders := orders + [OrderRow(runId, intent, Created, submittedAt)];
    }

    method MarkOrder(orderId: nat, status: OrderStatus)
      requires orderId < |orders|
      modifies this`orders
      ensures orders == old(orders)[orderId := old(orders)[orderId].(status := status)]
    {
      orders := orders[orderId := orders[orderId].(status := status)];
    }

    method RecordFill(runId: int, orderId: nat, fill: Fill) returns (fillId: nat)
      requires orderId < |orders|
      modifies this`fills, this`orders
      ensures fillId == |old(fills)| && fills == old(fills) + [FillRow(runId, orderId, StoredFill(fill, round))]
      ensures orders == old(orders)[orderId := old(orders)[orderId].(status := Filled)]
    {
      fillId := |fills|;
      fills := fills + [FillRow(runId, orderId, StoredFill(fill, round))];
      MarkOrder(orderId, Filled);
    }

    method AppendFillCashLedger(fill: Fill, fillId: int, cashBefore: real)
      modifies this`ledger
      ensures ledger == old(ledger) + FillLedger(fill, cashBefore, fillId, round)
    {
      var notionalAmount;
      if fill.side == Buy {
        notionalAmount := -fill.Notional();
      } else {
        notionalAmount := fill.Notional();
      }
      var cashAfterNotional := cashBefore + notionalAmount;
      var commissionAmount := -fill.commission;
      ledger := ledger + [LedgerRow(if fill.side == Buy then BuyNotional else SellNotional,
                                    round(notionalAmount), round(cashAfterNotional), Some(fillId), fill.filledAt)];
      ledger := ledger + [LedgerRow(Commission, round(commissionAmount),
                                    round(cashAfterNotional + commissionAmount), Some(fillId), fill.filledAt)];
    }

    /** The rows are changed one by one in the session and flushed together. */
    method UpsertPositions(portfolio: Portfolio, tradedId: int)
      modifies this`positions
      ensures positions == Upserted(old(positions), portfolio, tradedId, round)
    {
      var delta := portfolio.realizedPnl - SumBy(positions, RealizedOf);
      positions := UpsertRows(positions, portfolio.positions, delta, tradedId, round);
    }

    method RecordSnapshot(runId: int, timestamp: int, portfolio: Portfolio)
      modifies this`snapshots
      ensures snapshots == old(snapshots) + [Snapshot(runId, timestamp, portfolio, round)]
    {
      snapshots := snapshots + [Snapshot(runId, timestamp, portfolio, round)];
    }

    /** Checks, submits and books one intent. */
    method ProcessOrder(q: TickRequest, intent: OrderIntent, latest: Bar, before: Tick)
      returns (r: Result<Tick, TickError>)
      requires before.account == State()
      modifies this
      ensures r == ProcessIntent(before, q, intent, latest, round)
      ensures r.Ok? ==> r.value.account == State()
    {
      var orderId := CreateOrder(q.runId, intent, latest.timestamp);
      var decision := CheckOrder(q.rules, intent, Some(latest), before.portfolio, q.approved);
      decisions := decisions + [decision];
      var t := before.(created := before.created + 1, decided := before.decided + 1);
      if decision != Approved {
        MarkOrder(orderId, RiskRejected);
        assert orders == before.account.orders + [OrderRow(q.runId, intent, RiskRejected, latest.timestamp)];
        return Ok(t.(account := State(), rejected := t.rejected + 1));
      }
      var result := SubmitOrder(q.broker, intent, latest);
      if result == None {
        MarkOrder(orderId, Skipped);
        assert orders == before.account.orders + [OrderRow(q.runId, intent, Skipped, latest.timestamp)];
        return Ok(t.(account := State()));
      }
      var applied := ApplyFillToCopy(before.portfolio, result.value);
      if applied == Err(InsufficientCash) {
        MarkOrder(orderId, Skipped);
        assert orders == before.account.orders + [OrderRow(q.runId, intent, Skipped, latest.timestamp)];
        return Ok(t.(account := State()));
      }
      if applied.Err? {
        return Err(FillRefused(applied.error));
      }
      var fillId := RecordFill(q.runId, orderId, result.value);
      assert orders == before.account.orders + [OrderRow(q.runId, intent, Filled, latest.timestamp)];
      AppendFillCashLedger(result.value, fillId, before.portfolio.cash);
      return Ok(t.(account := State(), portfolio := applied.value, fills := t.fills + 1, filled := t.filled + 1));
    }

    /** The order loop. The tables may be left half written when it fails; the caller rolls back. */
    method ProcessOrders(q: TickRequest, intents: seq<OrderIntent>, latest: Bar, initial: Portfolio)
      returns (r: Result<Tick, TickError>)
      modifies this
      ensures r == ProcessIntents(Tick(old(State()), initial, 0, 0, 0, 0, 0), q, intents, latest, round)
      ensures r.Ok? ==> r.value.account == State()
    {
      var t := Tick(State(), initial, 0, 0, 0, 0, 0);
      ghost var start := t;
      for n := 0 to |intents|
        invariant t.account == State()
        invariant ProcessIntents(t, q, intents[n..], latest, round) == ProcessIntents(start, q, intents, latest, round)
      {
        assert intents[n..][0] == intents[n] && intents[n..][1..] == intents[n + 1..];
        var step := ProcessOrder(q, intents[n], latest, t);
        if step.Err? {
          return step;
        }
        t := step.value;
      }
      return Ok(t);
    }

    /** One session: everything is written, or nothing is. */
    method Step(bars: seq<Bar>, q: TickRequest) returns (r: Result<TickSummary, TickError>)
      modifies this
      ensures match RunOneTick(old(State()), bars, q, round)
              case Ok(done) => r == Ok(done.1) && State() == done.0
              case Err(e) => r == Err(e) && State() == old(State())
    {
      if |runs| <= q.runId { return Err(RunNotFound); }
      if !runs[q.runId].running { return Err(RunNotRunning); }
      if runs[q.runId].strategyName != q.strategyName { return Err(StrategyMismatch); }
      if bars == [] { return Err(NoBars); }
      var latest := bars[|bars| - 1];
      if runs[q.runId].lastProcessedAt == Some(latest.timestamp) {
        return Ok(TickSummary(latest.timestamp, 0, 0, 0, 0, false, 0, true));
      }
      var loaded := LoadPortfolio(State());
      if loaded == None { return Err(LedgerMissing); }
      var saved := State();
      var portfolio := Marked(loaded.value, latest);
      var intents := q.strategy(bars, portfolio);
      var done := ProcessOrders(q, intents, latest, portfolio);
      if done.Err? {
        Rollback(saved);
        return Err(done.error);
      }
      IntentsKeepTables(StartTick(saved, loaded.value, latest), q, intents, latest, round);
      var t := done.value;
      UpsertPositions(t.portfolio, latest.instrumentId);
      RecordSnapshot(q.runId, latest.timestamp, t.portfolio);
      runs := runs[q.runId := runs[q.runId].(lastProcessedAt := Some(latest.timestamp))];
      return Ok(TickSummary(latest.timestamp, t.created, t.filled, t.rejected, t.fills, true, t.decided, false));
    }
  }
}
