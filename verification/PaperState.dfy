/** paper/repositories.py: the rows of one paper account and what each write does to them.
    Every query of the source filters by account, so one account's rows are one state.
    Row ids are positions in the row sequences. `Rounding` is what the 6-decimal money
    columns do to a stored value; exact arithmetic is the identity. */
module PaperState {
  import opened Wrappers
  import opened Sums
  import opened Models
  import opened Risk

  type Rounding = real -> real

  datatype LedgerEvent = InitialDeposit | BuyNotional | SellNotional | Commission

  datatype LedgerRow = LedgerRow(event: LedgerEvent, amount: real, cashAfter: real, fillId: Option<int>,
      occurredAt: int)

  datatype PositionRow = PositionRow(quantity: int, avgCost: real, marketPrice: real, realizedPnl: real)

  datatype OrderStatus = Created | RiskRejected | Skipped | Filled

  datatype OrderRow = OrderRow(runId: int, intent: OrderIntent, status: OrderStatus, submittedAt: int)

  datatype FillRow = FillRow(runId: int, orderId: int, fill: Fill)

  datatype SnapshotRow = SnapshotRow(
    runId: int, timestamp: int, equity: real, cash: real, marketValue: real,
    realizedPnl: real, unrealizedPnl: real, drawdown: real)

  datatype RunRow = RunRow(instrumentId: int, strategyName: string, running: bool, lastProcessedAt: Option<int>)

  datatype Account = Account(
    ledger: seq<LedgerRow>, positions: map<int, PositionRow>, orders: seq<OrderRow>, fills: seq<FillRow>,
    decisions: seq<Decision>, snapshots: seq<SnapshotRow>, runs: seq<RunRow>)

  function RealizedOf(r: PositionRow): real {
    r.realizedPnl
  }

  function StoredCost(r: PositionRow): real {
    Times(r.avgCost, r.quantity)
  }

  function NewAccount(initialCash: real, today: int, round: Rounding): Account {
    Account([LedgerRow(InitialDeposit, round(initialCash), round(initialCash), None, today)],
            map[], [], [], [], [], [])
  }

  /** None stands for the error of an account without ledger rows. */
  function LatestCash(a: Account): Option<real> {
    if a.ledger == [] then None else Some(a.ledger[|a.ledger| - 1].cashAfter)
  }

  function OpenPositions(rows: map<int, PositionRow>): map<int, Position> {
    map k | k in rows && rows[k].quantity != 0 :: Position(rows[k].quantity, rows[k].avgCost, rows[k].marketPrice)
  }

  function LoadPortfolio(a: Account): Option<Portfolio> {
    match LatestCash(a)
    case None => None
    case Some(cash) => Some(Portfolio(cash, OpenPositions(a.positions), SumBy(a.positions, RealizedOf), None))
  }

  /** The notional row and the commission row of one fill. */
  function FillLedger(fill: Fill, cashBefore: real, fillId: int, round: Rounding): seq<LedgerRow> {
    var amount := if fill.side.Buy? then -fill.Notional() else fill.Notional();
    var event := if fill.side.Buy? then BuyNotional else SellNotional;
    [LedgerRow(event, round(amount), round(cashBefore + amount), Some(fillId), fill.filledAt),
     LedgerRow(Commission, round(-fill.commission), round(cashBefore + amount + -fill.commission),
               Some(fillId), fill.filledAt)]
  }

  function StoredFill(fill: Fill, round: Rounding): Fill {
    fill.(price := round(fill.price), commission := round(fill.commission), slippage := round(fill.slippage))
  }

  function RealizedDelta(rows: map<int, PositionRow>, p: Portfolio): real {
    p.realizedPnl - SumBy(rows, RealizedOf)
  }

  function UpsertedRow(rows: map<int, PositionRow>, held: map<int, Position>, delta: real, tradedId: int,
                       k: int, round: Rounding): PositionRow
    requires k in rows || k in held
  {
    var carried := if k in rows then rows[k].realizedPnl else 0.0;
    var realized := round(if k == tradedId then carried + delta else carried);
    if k in held then PositionRow(held[k].quantity, round(held[k].avgCost), round(held[k].marketPrice), realized)
    else PositionRow(0, rows[k].avgCost, round(0.0), realized)
  }

  function UpsertedRows(rows: map<int, PositionRow>, held: map<int, Position>, delta: real, tradedId: int,
                        round: Rounding): map<int, PositionRow>
  {
    map k | k in rows.Keys + held.Keys :: UpsertedRow(rows, held, delta, tradedId, k, round)
  }

  /** Held positions are written, rows no longer held are emptied, and the realised gain
      since the last write is booked on the traded instrument, if it has a row by then. */
  function Upserted(rows: map<int, PositionRow>, p: Portfolio, tradedId: int, round: Rounding): map<int, PositionRow> {
    UpsertedRows(rows, p.positions, RealizedDelta(rows, p), tradedId, round)
  }

  function Snapshot(runId: int, timestamp: int, p: Portfolio, round: Rounding): SnapshotRow {
    SnapshotRow(runId, timestamp, round(p.Equity()), round(p.cash), round(p.MarketValue()),
                round(p.realizedPnl), round(p.UnrealizedPnl()), round(p.Drawdown()))
  }

  // ----- What persisting and loading again keeps -----

  ghost predicate Exact(round: Rounding) {
    forall x: real :: round(x) == x
  }

  /** The realised gain has nowhere to go: the traded instrument never had a row and is not
      held when the tick ends. */
  ghost predicate LosesGain(rows: map<int, PositionRow>, p: Portfolio, tradedId: int) {
    tradedId !in rows && tradedId !in p.positions
  }

  lemma UpsertedRealized(rows: map<int, PositionRow>, p: Portfolio, tradedId: int, round: Rounding)
    requires Exact(round)
    ensures SumBy(Upserted(rows, p, tradedId, round), RealizedOf)
         == if LosesGain(rows, p, tradedId) then SumBy(rows, RealizedOf) else p.realizedPnl
  {
    var now := Upserted(rows, p, tradedId, round);
    if tradedId in now {
      SumSplits(now, RealizedOf, tradedId);
      SumSplits(rows, RealizedOf, tradedId);
      SumAgree(rows - {tradedId}, RealizedOf, now - {tradedId}, RealizedOf);
    } else {
      SumAgree(rows, RealizedOf, now, RealizedOf);
    }
  }

  /** Loading what a tick stored gives back the same open positions, and the same realised
      total exactly when the gain is zero or the traded instrument has somewhere to book it;
      otherwise the total is short by exactly that gain. */
  lemma PersistLoadRoundTrip(a: Account, p: Portfolio, tradedId: int, round: Rounding)
    requires Exact(round) && p.AllLong() && LatestCash(a) == Some(p.cash)
    ensures var loaded := LoadPortfolio(a.(positions := Upserted(a.positions, p, tradedId, round))).value;
            var lost := if LosesGain(a.positions, p, tradedId) then RealizedDelta(a.positions, p) else 0.0;
            && loaded.cash == p.cash
            && loaded.positions == p.positions
            && loaded.realizedPnl == p.realizedPnl - lost
  {
    var now := Upserted(a.positions, p, tradedId, round);
    UpsertedRealized(a.positions, p, tradedId, round);
    assert OpenPositions(now) == p.positions;
  }
}
