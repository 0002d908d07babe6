/** Whole lives of a paper account: any interleaving of stored bars, started runs and ticks
    of any of the runs that share the account. */
module PaperRuns {
  import opened Wrappers
  import opened Models
  import opened Accounting
  import opened Execution
  import opened Risk
  import opened MarketData
  import opened PaperState
  import opened PaperEngine

  datatype World = World(rows: seq<BarRow>, account: Account)

  datatype Command =
    | StoreBar(bar: Bar)
    | StartRun(instrumentId: int, strategyName: string)
    | RunTick(request: TickRequest)

  function History(w: World, runId: nat): seq<Bar> {
    if runId < |w.account.runs| then ListBars(w.rows, w.account.runs[runId].instrumentId) else []
  }

  /** A tick that raises leaves the tables as they were. */
  function Apply(w: World, c: Command, round: Rounding): World {
    match c
    case StoreBar(bar) => w.(rows := Upsert(w.rows, bar))
    case StartRun(id, name) =>
      w.(account := w.account.(runs := w.account.runs + [RunRow(id, name, true, None)]))
    case RunTick(q) =>
      match RunOneTick(w.account, History(w, q.runId), q, round)
      case Err(_) => w
      case Ok(done) => w.(account := done.0)
  }

  function Exec(w: World, cs: seq<Command>, round: Rounding): World
    decreases |cs|
  {
    if cs == [] then w else Exec(Apply(w, cs[0], round), cs[1..], round)
  }

  function Fresh(initialCash: real, today: int, round: Rounding): World {
    World([], NewAccount(initialCash, today, round))
  }

  // ----- Ledger, fills and positions agree -----

  function AmountTotal(ledger: seq<LedgerRow>): real {
    if ledger == [] then 0.0 else AmountTotal(ledger[..|ledger| - 1]) + ledger[|ledger| - 1].amount
  }

  ghost predicate LedgerSound(ledger: seq<LedgerRow>) {
    forall i :: 0 <= i < |ledger| ==> 0.0 <= ledger[i].cashAfter == AmountTotal(ledger[..i + 1])
  }

  function FillTotal(fills: seq<FillRow>, k: int): int {
    if fills == [] then 0
    else
      var last := fills[|fills| - 1].fill;
      FillTotal(fills[..|fills| - 1], k) + if last.instrumentId == k then SignedQuantity(last) else 0
  }

  ghost predicate BooksSound(ledger: seq<LedgerRow>, fills: seq<FillRow>) {
    LedgerSound(ledger) && |ledger| == 1 + 2 * |fills|
  }

  ghost predicate AccountSound(a: Account) {
    && BooksSound(a.ledger, a.fills)
    && (forall k :: k in a.positions ==> 0 <= a.positions[k].quantity == FillTotal(a.fills, k))
    && (forall k :: k !in a.positions ==> FillTotal(a.fills, k) == 0)
  }

  ghost predicate TickSound(t: Tick) {
    && BooksSound(t.account.ledger, t.account.fills)
    && LatestCash(t.account) == Some(t.portfolio.cash)
    && t.portfolio.AllLong()
    && forall k :: t.portfolio.Held(k) == FillTotal(t.account.fills, k)
  }

  /** The engine as it is always assembled: sane prices are checked, rates are fractions. */
  ghost predicate Guarded(q: TickRequest) {
    PriceSanityRule in q.rules && RatesInUnit(q.broker)
  }

  lemma AppendLedger(ledger: seq<LedgerRow>, row: LedgerRow)
    requires ledger != [] && LedgerSound(ledger)
    requires 0.0 <= row.cashAfter == ledger[|ledger| - 1].cashAfter + row.amount
    ensures LedgerSound(ledger + [row])
  {
    var longer := ledger + [row];
    assert longer[..|ledger| + 1] == longer && longer[..|ledger|] == ledger == ledger[..|ledger| - 1 + 1];
    forall i | 0 <= i < |ledger| ensures 0.0 <= longer[i].cashAfter == AmountTotal(longer[..i + 1]) {
      assert longer[..i + 1] == ledger[..i + 1];
    }
  }

  lemma LedgerBooked(ledger: seq<LedgerRow>, fill: Fill, cash: real, fillId: int, round: Rounding)
    requires Exact(round) && ledger != [] && LedgerSound(ledger) && ledger[|ledger| - 1].cashAfter == cash
    requires 0.0 <= cash + CashFlow(fill) && 0.0 <= fill.commission && 0.0 <= fill.Notional() && 0.0 <= cash
    ensures LedgerSound(ledger + FillLedger(fill, cash, fillId, round))
  {
    var booked := FillLedger(fill, cash, fillId, round);
    AppendLedger(ledger, booked[0]);
    AppendLedger(ledger + [booked[0]], booked[1]);
    assert ledger + booked == ledger + [booked[0]] + [booked[1]];
  }

  lemma HoldingsBooked(p: Portfolio, after: Portfolio, fills: seq<FillRow>, row: FillRow, fill: Fill)
    requires p.AllLong() && ApplyFill(p, fill) == Ok(after)
    requires row.fill.(price := fill.price, commission := fill.commission, slippage := fill.slippage) == fill
    requires forall k :: p.Held(k) == FillTotal(fills, k)
    ensures forall k :: after.Held(k) == FillTotal(fills + [row], k)
  {
    FillEffect(p, fill);
    assert (fills + [row])[..|fills|] == fills;
    forall k ensures after.Held(k) == FillTotal(fills + [row], k) {
      if k != fill.instrumentId {
        assert k in after.positions <==> k in after.positions - {fill.instrumentId};
        assert k in p.positions <==> k in p.positions - {fill.instrumentId};
      }
    }
  }

  lemma BookedSound(t: Tick, q: TickRequest, intent: OrderIntent, latest: Bar, round: Rounding)
    requires Exact(round) && TickSound(t) && Guarded(q)
    requires ProcessIntent(t, q, intent, latest, round).Ok?
    ensures TickSound(ProcessIntent(t, q, intent, latest, round).value)
  {
    var u := ProcessIntent(t, q, intent, latest, round).value;
    if u.fills != t.fills {
      var fill := SubmitOrder(q.broker, intent, latest).value;
      CheckOrderFirstRefusal(q.rules, intent, Some(latest), t.portfolio, q.approved);
      var i :| 0 <= i < |q.rules| && q.rules[i] == PriceSanityRule;
      assert Passes(q.rules[i], intent, Some(latest), t.portfolio, q.approved);
      FillNeverBeatsClose(q.broker, intent, latest);
      FillEffect(t.portfolio, fill);
      FillRefusedExactly(t.portfolio, fill);
      LedgerBooked(t.account.ledger, fill, t.portfolio.cash, |t.account.fills|, round);
      HoldingsBooked(t.portfolio, u.portfolio, t.account.fills, u.account.fills[|t.account.fills|], fill);
    }
  }

  lemma {:induction false} IntentsSound(t: Tick, q: TickRequest, intents: seq<OrderIntent>, latest: Bar,
      round: Rounding)
    requires Exact(round) && TickSound(t) && Guarded(q)
    requires ProcessIntents(t, q, intents, latest, round).Ok?
    ensures TickSound(ProcessIntents(t, q, intents, latest, round).value)
    decreases |intents|
  {
    if intents != [] {
      BookedSound(t, q, intents[0], latest, round);
      IntentsSound(ProcessIntent(t, q, intents[0], latest, round).value, q, intents[1..], latest, round);
    }
  }

  lemma TickKeepsAccountSound(a: Account, bars: seq<Bar>, q: TickRequest, round: Rounding)
    requires Exact(round) && AccountSound(a) && Guarded(q) && RunOneTick(a, bars, q, round).Ok?
    ensures AccountSound(RunOneTick(a, bars, q, round).value.0)
  {
    if !RunOneTick(a, bars, q, round).value.1.noop {
      var latest := bars[|bars| - 1];
      var start := StartTick(a, LoadPortfolio(a).value, latest);
      var intents := q.strategy(bars, start.portfolio);
      assert TickSound(start);
      IntentsSound(start, q, intents, latest, round);
      IntentsKeepTables(start, q, intents, latest, round);
    }
  }

  lemma FreshSound(initialCash: real, today: int, round: Rounding)
    requires Exact(round) && 0.0 <= initialCash
    ensures AccountSound(NewAccount(initialCash, today, round))
  {
    var ledger := NewAccount(initialCash, today, round).ledger;
    assert ledger[..1] == ledger && ledger[..0] == [];
  }

  /** In every reachable state each ledger row's balance is the non-negative sum of the
      amounts so far, there is one deposit row and two rows per fill, and every position
      (a row that is missing counts as zero) holds the signed sum of its fills, however many
      runs share the account. */
  lemma {:induction false} LedgerAndPositionsAgree(w: World, cs: seq<Command>, round: Rounding)
    requires Exact(round) && AccountSound(w.account)
    requires forall c :: c in cs && c.RunTick? ==> Guarded(c.request)
    ensures AccountSound(Exec(w, cs, round).account)
    decreases |cs|
  {
    if cs != [] {
      var c := cs[0];
      assert c in cs;
      if c.RunTick? && RunOneTick(w.account, History(w, c.request.runId), c.request, round).Ok? {
        TickKeepsAccountSound(w.account, History(w, c.request.runId), c.request, round);
      }
      LedgerAndPositionsAgree(Apply(w, c, round), cs[1..], round);
    }
  }

  /** In every account that can be reached from a fresh one. */
  lemma ReachableLedgersAgree(initialCash: real, today: int, cs: seq<Command>, round: Rounding)
    requires Exact(round) && 0.0 <= initialCash
    requires forall c :: c in cs && c.RunTick? ==> Guarded(c.request)
    ensures AccountSound(Exec(Fresh(initialCash, today, round), cs, round).account)
  {
    FreshSound(initialCash, today, round);
    LedgerAndPositionsAgree(Fresh(initialCash, today, round), cs, round);
  }

  // ----- What a tick leaves behind -----

  function CountStatus(orders: seq<OrderRow>, status: OrderStatus): int {
    if orders == [] then 0
    else CountStatus(orders[..|orders| - 1], status) + if orders[|orders| - 1].status == status then 1 else 0
  }

  /** Orders created since `a` ended filled, rejected or skipped, as the risk check decided. */
  ghost predicate OrdersSettled(a: Account, now: Account, runId: int) {
    && a.orders <= now.orders && a.decisions <= now.decisions
    && |now.orders| - |a.orders| == |now.decisions| - |a.decisions|
    && forall i :: |a.orders| <= i < |now.orders| ==>
         && now.orders[i].runId == runId
         && now.orders[i].status in {Filled, RiskRejected, Skipped}
         && (now.orders[i].status == RiskRejected <==> now.decisions[|a.decisions| + i - |a.orders|].Rejected?)
  }

  /** Fills booked since `a` each belong to a filled order with the same terms. */
  ghost predicate FillsMatched(a: Account, now: Account) {
    && a.fills <= now.fills && a.ledger <= now.ledger
    && forall j :: |a.fills| <= j < |now.fills| ==>
         var f := now.fills[j];
         && |a.orders| <= f.orderId < |now.orders|
         && now.orders[f.orderId].status == Filled
         && now.orders[f.orderId].intent == OrderIntent(f.fill.instrumentId, f.fill.side, f.fill.quantity)
  }

  /** `t` is part of a tick that started from the tables `a`. */
  predicate HasFill(fills: seq<FillRow>, from: nat, orderId: int) {
    exists j :: from <= j < |fills| && fills[j].orderId == orderId
  }

  /** Each filled order since `a` has one fill and no more, in the order of the orders. */
  ghost predicate FillsPaired(a: Account, now: Account) {
    && (forall i, j :: |a.fills| <= i < j < |now.fills| ==> now.fills[i].orderId < now.fills[j].orderId)
    && (forall k | |a.orders| <= k < |now.orders| && now.orders[k].status == Filled ::
          HasFill(now.fills, |a.fills|, k))
  }

  ghost predicate Settled(a: Account, t: Tick, runId: int) {
    && OrdersSettled(a, t.account, runId)
    && FillsMatched(a, t.account) && FillsPaired(a, t.account)
    && t.created == t.decided == |t.account.orders| - |a.orders|
    && t.filled == t.fills == |t.account.fills| - |a.fills| == CountStatus(t.account.orders[|a.orders|..], Filled)
    && t.rejected == CountStatus(t.account.orders[|a.orders|..], RiskRejected)
  }

  lemma CountAppended(orders: seq<OrderRow>, from: nat, row: OrderRow, status: OrderStatus)
    requires from <= |orders|
    ensures CountStatus((orders + [row])[from..], status)
         == CountStatus(orders[from..], status) + if row.status == status then 1 else 0
  {
    var tail := (orders + [row])[from..];
    assert tail[..|tail| - 1] == orders[from..];
  }

  lemma OrderAppended(a: Account, before: Account, now: Account, row: OrderRow, decision: Decision, runId: int)
    requires OrdersSettled(a, before, runId) && FillsMatched(a, before)
    requires now.orders == before.orders + [row] && now.decisions == before.decisions + [decision]
    requires row.runId == runId && row.status in {Filled, RiskRejected, Skipped}
    requires row.status == RiskRejected <==> decision.Rejected?
    requires || (now.fills == before.fills && now.ledger == before.ledger)
             || (&& before.ledger <= now.ledger && |now.fills| == |before.fills| + 1 && before.fills <= now.fills
                 && row.status == Filled
                 && var f := now.fills[|before.fills|];
                    && f.orderId == |before.orders|
                    && row.intent == OrderIntent(f.fill.instrumentId, f.fill.side, f.fill.quantity))
    ensures OrdersSettled(a, now, runId) && FillsMatched(a, now)
  {
    forall i | |a.orders| <= i < |now.orders|
      ensures now.orders[i].runId == runId && now.orders[i].status in {Filled, RiskRejected, Skipped}
      ensures now.orders[i].status == RiskRejected <==> now.decisions[|a.decisions| + i - |a.orders|].Rejected?
    {
      if i < |before.orders| {
        assert now.orders[i] == before.orders[i];
      }
    }
    forall j | |a.fills| <= j < |now.fills|
      ensures var f := now.fills[j];
              && |a.orders| <= f.orderId < |now.orders|
              && now.orders[f.orderId].status == Filled
              && now.orders[f.orderId].intent == OrderIntent(f.fill.instrumentId, f.fill.side, f.fill.quantity)
    {
      if j < |before.fills| {
        assert now.fills[j] == before.fills[j];
      }
    }
  }

  lemma PairAppended(a: Account, before: Account, now: Account)
    requires FillsMatched(a, before) && FillsPaired(a, before)
    requires |now.orders| == |before.orders| + 1 && before.orders <= now.orders
    requires if now.orders[|before.orders|].status == Filled then
               && |now.fills| == |before.fills| + 1 && before.fills <= now.fills
               && now.fills[|before.fills|].orderId == |before.orders|
             else now.fills == before.fills
    ensures FillsPaired(a, now)
  {
    forall k | |a.orders| <= k < |now.orders| && now.orders[k].status == Filled
      ensures HasFill(now.fills, |a.fills|, k)
    {
      if k == |before.orders| {
        assert now.fills[|before.fills|].orderId == k;
      } else {
        assert before.orders[k].status == Filled;
        var j :| |a.fills| <= j < |before.fills| && before.fills[j].orderId == k;
        assert now.fills[j].orderId == k;
      }
    }
  }

  lemma IntentSettles(a: Account, t: Tick, q: TickRequest, intent: OrderIntent, latest: Bar, round: Rounding)
    requires Settled(a, t, q.runId) && ProcessIntent(t, q, intent, latest, round).Ok?
    ensures Settled(a, ProcessIntent(t, q, intent, latest, round).value, q.runId)
  {
    var u := ProcessIntent(t, q, intent, latest, round).value;
    var row, decision := u.account.orders[|t.account.orders|], u.account.decisions[|t.account.decisions|];
    OrderAppended(a, t.account, u.account, row, decision, q.runId);
    CountAppended(t.account.orders, |a.orders|, row, Filled);
    CountAppended(t.account.orders, |a.orders|, row, RiskRejected);
    PairAppended(a, t.account, u.account);
  }

  lemma {:induction false} IntentsSettle(a: Account, t: Tick, q: TickRequest, intents: seq<OrderIntent>, latest: Bar,
      round: Rounding)
    requires Settled(a, t, q.runId) && ProcessIntents(t, q, intents, latest, round).Ok?
    ensures Settled(a, ProcessIntents(t, q, intents, latest, round).value, q.runId)
    decreases |intents|
  {
    if intents != [] {
      IntentSettles(a, t, q, intents[0], latest, round);
      IntentsSettle(a, ProcessIntent(t, q, intents[0], latest, round).value, q, intents[1..], latest, round);
    }
  }

  /** A tick without a new bar changes nothing. Any other committed tick only appends; each
      order it creates ends filled, rejected or skipped, rejected exactly when the risk check
      said so; each fill belongs to a filled order with the same terms; and the counters it
      reports are the numbers of such rows. */
  lemma TickSettlesOrders(a: Account, bars: seq<Bar>, q: TickRequest, round: Rounding)
    requires RunOneTick(a, bars, q, round).Ok?
    ensures var (now, s) := RunOneTick(a, bars, q, round).value;
            && bars != [] && s.processedAt == bars[|bars| - 1].timestamp
            && (s.noop <==> a.runs[q.runId].lastProcessedAt == Some(s.processedAt))
            && (s.noop ==> now == a && s == TickSummary(s.processedAt, 0, 0, 0, 0, false, 0, true))
            && (!s.noop ==>
                  && Settled(a, Tick(now, LoadPortfolio(a).value, s.ordersCreated, s.ordersFilled, s.ordersRejected,
                                     s.fillsCreated, s.riskDecisions), q.runId)
                  && |now.snapshots| == |a.snapshots| + 1 && a.snapshots <= now.snapshots
                  && now.snapshots[|a.snapshots|].runId == q.runId
                  && now.snapshots[|a.snapshots|].timestamp == s.processedAt
                  && now.runs == a.runs[q.runId := a.runs[q.runId].(lastProcessedAt := Some(s.processedAt))])
  {
    if !RunOneTick(a, bars, q, round).value.1.noop {
      var latest := bars[|bars| - 1];
      var start := StartTick(a, LoadPortfolio(a).value, latest);
      var intents := q.strategy(bars, start.portfolio);
      assert a.orders[|a.orders|..] == [];
      IntentsSettle(a, start, q, intents, latest, round);
      IntentsKeepTables(start, q, intents, latest, round);
    }
  }

  // ----- Progress of each run -----

  function SnapshotDates(snapshots: seq<SnapshotRow>, runId: int): seq<int> {
    if snapshots == [] then []
    else
      var last := snapshots[|snapshots| - 1];
      SnapshotDates(snapshots[..|snapshots| - 1], runId) + if last.runId == runId then [last.timestamp] else []
  }

  ghost predicate Increasing(dates: seq<int>) {
    forall i, j :: 0 <= i < j < |dates| ==> dates[i] < dates[j]
  }

  /** The run's snapshot dates rise strictly, its progress mark is the last of them, and the
      newest stored bar is not older than that. */
  ghost predicate RunInStep(w: World, runId: nat)
    requires runId < |w.account.runs|
  {
    var dates, history := SnapshotDates(w.account.snapshots, runId), History(w, runId);
    && Increasing(dates)
    && w.account.runs[runId].lastProcessedAt == (if dates == [] then None else Some(dates[|dates| - 1]))
    && (dates != [] ==> history != [] && dates[|dates| - 1] <= history[|history| - 1].timestamp)
  }

  ghost predicate WorldInStep(w: World) {
    && KeysUnique(w.rows)
    && (forall i :: 0 <= i < |w.account.snapshots| ==> 0 <= w.account.snapshots[i].runId < |w.account.runs|)
    && forall id :: 0 <= id < |w.account.runs| ==> RunInStep(w, id)
  }

  lemma {:induction false} NoSnapshotsYet(snapshots: seq<SnapshotRow>, runId: int)
    requires forall i :: 0 <= i < |snapshots| ==> snapshots[i].runId < runId
    ensures SnapshotDates(snapshots, runId) == []
  {
    if snapshots != [] {
      NoSnapshotsYet(snapshots[..|snapshots| - 1], runId);
    }
  }

  lemma SnapshotKeepsStep(w: World, now: World, q: TickRequest, row: SnapshotRow, id: nat)
    requires id < |w.account.runs| && RunInStep(w, id)
    requires q.runId < |w.account.runs| && row.runId == q.runId && History(w, q.runId) != []
    requires row.timestamp == History(w, q.runId)[|History(w, q.runId)| - 1].timestamp
    requires w.account.runs[q.runId].lastProcessedAt != Some(row.timestamp)
    requires now.rows == w.rows && now.account.snapshots == w.account.snapshots + [row]
    requires now.account.runs
             == w.account.runs[q.runId := w.account.runs[q.runId].(lastProcessedAt := Some(row.timestamp))]
    ensures RunInStep(now, id)
  {
    var dates := SnapshotDates(w.account.snapshots, id);
    assert now.account.snapshots[..|w.account.snapshots|] == w.account.snapshots;
    assert SnapshotDates(now.account.snapshots, id) == dates + if q.runId == id then [row.timestamp] else [];
    assert History(now, id) == History(w, id);
  }

  lemma TickKeepsStep(w: World, q: TickRequest, round: Rounding)
    requires WorldInStep(w) && RunOneTick(w.account, History(w, q.runId), q, round).Ok?
    ensures WorldInStep(Apply(w, RunTick(q), round))
  {
    var bars := History(w, q.runId);
    TickSettlesOrders(w.account, bars, q, round);
    var (after, summary) := RunOneTick(w.account, bars, q, round).value;
    var now := w.(account := after);
    assert now == Apply(w, RunTick(q), round);
    if !summary.noop {
      var row := after.snapshots[|w.account.snapshots|];
      assert after.snapshots == w.account.snapshots + [row];
      forall id | 0 <= id < |now.account.runs| ensures RunInStep(now, id) {
        SnapshotKeepsStep(w, now, q, row, id);
      }
    }
  }

  lemma CommandKeepsStep(w: World, c: Command, round: Rounding)
    requires WorldInStep(w)
    ensures WorldInStep(Apply(w, c, round))
  {
    var now := Apply(w, c, round);
    match c {
      case StoreBar(bar) =>
        UpsertOverrides(w.rows, bar);
        forall id | 0 <= id < |now.account.runs| ensures RunInStep(now, id) {
          assert RunInStep(w, id);
          if History(w, id) != [] {
            NewestDateNeverFalls(w.rows, bar, w.account.runs[id].instrumentId);
          }
        }
      case StartRun(_, _) =>
        forall id | 0 <= id < |now.account.runs| ensures RunInStep(now, id) {
          if id < |w.account.runs| {
            assert RunInStep(w, id);
            assert History(now, id) == History(w, id);
          } else {
            NoSnapshotsYet(w.account.snapshots, id);
          }
        }
      case RunTick(q) =>
        if RunOneTick(w.account, History(w, q.runId), q, round).Ok? {
          TickKeepsStep(w, q, round);
        }
    }
  }

  /** Ticks are idempotent over whole lives: no run ever snapshots a date twice or goes back. */
  lemma {:induction false} RunsNeverGoBack(w: World, cs: seq<Command>, round: Rounding)
    requires WorldInStep(w)
    ensures WorldInStep(Exec(w, cs, round))
    decreases |cs|
  {
    if cs != [] {
      CommandKeepsStep(w, cs[0], round);
      RunsNeverGoBack(Apply(w, cs[0], round), cs[1..], round);
    }
  }

  /** In every world that can be reached from a fresh account. */
  lemma ReachableRunsInStep(initialCash: real, today: int, cs: seq<Command>, round: Rounding)
    ensures WorldInStep(Exec(Fresh(initialCash, today, round), cs, round))
  {
    RunsNeverGoBack(Fresh(initialCash, today, round), cs, round);
  }

  /** A second tick in a row is always a no-op. */
  lemma TickTwiceIsTickOnce(w: World, q: TickRequest, round: Rounding)
    ensures Apply(Apply(w, RunTick(q), round), RunTick(q), round) == Apply(w, RunTick(q), round)
  {
    var bars := History(w, q.runId);
    if RunOneTick(w.account, bars, q, round).Ok? {
      TickSettlesOrders(w.account, bars, q, round);
      var now := Apply(w, RunTick(q), round);
      assert History(now, q.runId) == bars;
    }
  }
}
