/** The audit journal's records and the session restore that replays them (src/execution/recovery.py). */
module Recovery {
  import opened Contracts
  import opened Accounting

  /** Records that name an order but carry no state for it. */
  datatype AuditKind = LiveSend | CancelResult | UnknownAmbiguous | IntegrityViolation

  datatype Record =
    | SessionStart(holdings: seq<Holding>)
    | PositionMismatch
    | RiskReject(id: nat, code: RejectCode)
    | IntentRecord(ts: int, id: nat, intent: Intent)
    | SubmitResult(id: nat, outcome: Outcome, status: OrderStatus)
    | Audit(kind: AuditKind, id: nat)
    | UnknownAdopted(id: nat, ref: BrokerRef)
    | UnknownResolved(id: nat)
    | FillRecord(id: nat, deltaQty: int, deltaAmount: int, cumQty: int, cumAmount: int)
    | StatusRecord(id: nat, status: OrderStatus, filledQty: int)

  datatype RestoreError =
    | DuplicateIntent | EventWithoutIntent | InconsistentFill | StatusWithoutFill
    | BadHoldings | RefusedFill(cause: ExecError)

  type Orders = map<nat, Order>

  datatype Recovered = Recovered(orders: Orders, nextSeq: nat, submitTimes: seq<int>, ledger: Option<Balance>)

  // ---------------------------------------------------------------- sequence numbers and send times

  function Max(a: nat, b: nat): nat { if a >= b then a else b }

  function NextSeq(records: seq<Record>): nat {
    if records == [] then 0
    else
      var before, last := NextSeq(records[..|records| - 1]), records[|records| - 1];
      if last.IntentRecord? || last.RiskReject? then Max(before, last.id) else before
  }

  function SubmitTimes(records: seq<Record>): seq<int> {
    if records == [] then []
    else
      var before, last := SubmitTimes(records[..|records| - 1]), records[|records| - 1];
      if last.IntentRecord? then before + [last.ts] else before
  }

  // ---------------------------------------------------------------- orders

  /** One record applied to the orders rebuilt so far. */
  function ReplayOne(orders: Orders, r: Record): Result<Orders, RestoreError> {
    if r.SessionStart? || r.PositionMismatch? || r.RiskReject? then Success(orders)
    else if r.IntentRecord? then
      if r.id in orders then Failure(DuplicateIntent)
      else Success(orders[r.id := Order(r.id, r.intent, PendingSubmit, r.ts, NO_REF, 0, 0, NotRejected)])
    else if r.id !in orders then Failure(EventWithoutIntent)
    else
      var o := orders[r.id];
      match r
      case SubmitResult(_, outcome, status) =>
        Success(orders[r.id := o.(status := status, ref := outcome.ref,
                                  reject := if status.Rejected? then ByBroker else NotRejected)])
      case UnknownAdopted(_, ref) => Success(orders[r.id := o.(ref := ref)])
      case UnknownResolved(_) => Success(orders[r.id := o.(status := Rejected, reject := ByOperator)])
      case FillRecord(_, deltaQty, deltaAmount, cumQty, cumAmount) =>
        if !(o.filledQty < cumQty <= o.intent.qty) || cumAmount < o.filledAmount
           || deltaQty != cumQty - o.filledQty || deltaAmount != cumAmount - o.filledAmount then
          Failure(InconsistentFill)
        else Success(orders[r.id := o.(filledQty := cumQty, filledAmount := cumAmount)])
      case StatusRecord(_, status, filledQty) =>
        if filledQty != o.filledQty then Failure(StatusWithoutFill)
        else Success(orders[r.id := o.(status := status)])
      case _ => Success(orders)
  }

  function ReplayOrders(records: seq<Record>): Result<Orders, RestoreError> {
    if records == [] then Success(map[])
    else
      match ReplayOrders(records[..|records| - 1])
      case Success(orders) => ReplayOne(orders, records[|records| - 1])
      case Failure(e) => Failure(e)
  }

  /** An order still pending when the journal ends may or may not have reached the broker. */
  function SettleStatus(s: OrderStatus): OrderStatus { if s.PendingSubmit? then Unknown else s }

  function Settle(orders: Orders): Orders {
    map id | id in orders :: orders[id].(status := SettleStatus(orders[id].status))
  }

  // ---------------------------------------------------------------- ledger

  function FirstStart(records: seq<Record>): Option<seq<Holding>> {
    if records == [] then None
    else
      var before, last := FirstStart(records[..|records| - 1]), records[|records| - 1];
      if before.Some? then before
      else if last.SessionStart? then Some(last.holdings)
      else None
  }

  function HoldingPositions(holdings: seq<Holding>): Result<map<string, Position>, RestoreError> {
    if holdings == [] then Success(map[])
    else
      match HoldingPositions(holdings[..|holdings| - 1])
      case Failure(e) => Failure(e)
      case Success(m) =>
        var h := holdings[|holdings| - 1];
        if h.qty < 0 || h.cost < 0 || h.symbol in m then Failure(BadHoldings)
        else Success(m[h.symbol := Position(h.qty, h.cost)])
  }

  /** The fills of the journal applied in file order. */
  function ReplayFills(costs: CostModel, start: Balance, records: seq<Record>, orders: Orders)
    : Result<Balance, RestoreError>
  {
    if records == [] then Success(start)
    else
      match ReplayFills(costs, start, records[..|records| - 1], orders)
      case Failure(e) => Failure(e)
      case Success(b) => ReplayFill(costs, b, records[|records| - 1], orders)
  }

  function ReplayFill(costs: CostModel, b: Balance, r: Record, orders: Orders): Result<Balance, RestoreError> {
    if !r.FillRecord? then Success(b)
    else if r.id !in orders then Failure(EventWithoutIntent)
    else
      var i := orders[r.id].intent;
      match ApplyFill(costs, b, i.symbol, i.side, r.deltaQty, r.deltaAmount)
      case Success((after, _)) => Success(after)
      case Failure(e) => Failure(RefusedFill(e))
  }

  function ReplayLedger(costs: CostModel, records: seq<Record>, orders: Orders)
    : Result<Option<Balance>, RestoreError>
  {
    match FirstStart(records)
    case None => Success(None)
    case Some(holdings) =>
      match HoldingPositions(holdings)
      case Failure(e) => Failure(e)
      case Success(positions) =>
        match ReplayFills(costs, Balance(0, 0, positions), records, orders)
        case Failure(e) => Failure(e)
        case Success(b) => Success(Some(b))
  }

  // ---------------------------------------------------------------- restore

  /** What a journal means: the session a restart continues from. */
  function Restore(records: seq<Record>, paper: bool, costs: CostModel): Result<Recovered, RestoreError> {
    var nextSeq, times := NextSeq(records), SubmitTimes(records);
    if paper then Success(Recovered(map[], nextSeq, times, None))
    else
      match ReplayOrders(records)
      case Failure(e) => Failure(e)
      case Success(raw) =>
        var orders := Settle(raw);
        match ReplayLedger(costs, records, orders)
        case Failure(e) => Failure(e)
        case Success(ledger) => Success(Recovered(orders, nextSeq, times, ledger))
  }

  /** restore_session: three passes over the records. */
  method RestoreSession(records: seq<Record>, paper: bool, costs: CostModel)
    returns (r: Result<Recovered, RestoreError>)
    ensures r == Restore(records, paper, costs)
    ensures paper ==> r.Success? && r.value.orders == map[] && r.value.ledger.None?
  {
    var nextSeq: nat, times: seq<int> := 0, [];
    for k := 0 to |records|
      invariant nextSeq == NextSeq(records[..k]) && times == SubmitTimes(records[..k])
    {
      var rec := records[k];
      assert records[..k + 1][..k] == records[..k];
      if rec.IntentRecord? || rec.RiskReject? {
        nextSeq := if nextSeq >= rec.id then nextSeq else rec.id;
      }
      if rec.IntentRecord? {
        times := times + [rec.ts];
      }
    }
    assert records[..|records|] == records;
    if paper {
      return Success(Recovered(map[], nextSeq, times, None));
    }
    var orders: Orders := map[];
    for k := 0 to |records|
      invariant ReplayOrders(records[..k]) == Success(orders)
    {
      assert records[..k + 1][..k] == records[..k];
      var next := ReplayOne(orders, records[k]);
      if next.Failure? {
        FailureSticks(records, k + 1);
        return Failure(next.error);
      }
      orders := next.value;
    }
    orders := SettleAll(orders);
    r := RebuildLedger(records, orders, nextSeq, times, costs);
  }

  method SettleAll(orders: Orders) returns (settled: Orders)
    ensures settled == Settle(orders)
  {
    settled := orders;
    var todo := orders.Keys;
    while todo != {}
      invariant todo <= orders.Keys == settled.Keys
      invariant forall id :: id in orders ==>
                  settled[id] == if id in todo then orders[id] else Settle(orders)[id]
      decreases |todo|
    {
      var id :| id in todo;
      if settled[id].status.PendingSubmit? {
        settled := settled[id := settled[id].(status := Unknown)];
      }
      todo := todo - {id};
    }
    assert settled == Settle(orders);
  }

  method RebuildLedger(records: seq<Record>, orders: Orders, nextSeq: nat, times: seq<int>, costs: CostModel)
    returns (r: Result<Recovered, RestoreError>)
    ensures r == match ReplayLedger(costs, records, orders)
                 case Failure(e) => Failure(e)
                 case Success(ledger) => Success(Recovered(orders, nextSeq, times, ledger))
  {
    var first := FirstStart(records);
    if first.None? {
      return Success(Recovered(orders, nextSeq, times, None));
    }
    var positions: map<string, Position> := map[];
    for k := 0 to |first.value|
      invariant HoldingPositions(first.value[..k]) == Success(positions)
    {
      var h := first.value[k];
      assert first.value[..k + 1][..k] == first.value[..k];
      if h.qty < 0 || h.cost < 0 || h.symbol in positions {
        BadHoldingsStick(first.value, k + 1);
        return Failure(BadHoldings);
      }
      positions := positions[h.symbol := Position(h.qty, h.cost)];
    }
    assert first.value[..|first.value|] == first.value;
    var start := Balance(0, 0, positions);
    var ledger := new Ledger(start, costs);
    for k := 0 to |records|
      invariant ledger.costs == costs
      invariant ReplayFills(costs, start, records[..k], orders) == Success(ledger.Value())
    {
      assert records[..k + 1][..k] == records[..k];
      var rec := records[k];
      if rec.FillRecord? {
        if rec.id !in orders {
          FillFailureSticks(costs, start, records, orders, k + 1);
          return Failure(EventWithoutIntent);
        }
        var i := orders[rec.id].intent;
        var filled := ledger.Fill(i.symbol, i.side, rec.deltaQty, rec.deltaAmount);
        if filled.Failure? {
          FillFailureSticks(costs, start, records, orders, k + 1);
          return Failure(RefusedFill(filled.error));
        }
      }
    }
    assert records[..|records|] == records;
    r := Success(Recovered(orders, nextSeq, times, Some(ledger.Value())));
  }

  lemma {:induction false} FailureSticks(records: seq<Record>, k: nat)
    requires k <= |records| && ReplayOrders(records[..k]).Failure?
    ensures ReplayOrders(records) == ReplayOrders(records[..k])
  {
    if k < |records| {
      var init := records[..|records| - 1];
      assert init[..k] == records[..k];
      FailureSticks(init, k);
    } else {
      assert records[..k] == records;
    }
  }

  lemma {:induction false} BadHoldingsStick(holdings: seq<Holding>, k: nat)
    requires k <= |holdings| && HoldingPositions(holdings[..k]).Failure?
    ensures HoldingPositions(holdings) == HoldingPositions(holdings[..k])
  {
    if k < |holdings| {
      var init := holdings[..|holdings| - 1];
      assert init[..k] == holdings[..k];
      BadHoldingsStick(init, k);
    } else {
      assert holdings[..k] == holdings;
    }
  }

  lemma {:induction false} FillFailureSticks(costs: CostModel, start: Balance, records: seq<Record>, orders: Orders, k: nat)
    requires k <= |records| && ReplayFills(costs, start, records[..k], orders).Failure?
    ensures ReplayFills(costs, start, records, orders) == ReplayFills(costs, start, records[..k], orders)
  {
    if k < |records| {
      var init := records[..|records| - 1];
      assert init[..k] == records[..k];
      FillFailureSticks(costs, start, init, orders, k);
    } else {
      assert records[..k] == records;
    }
  }
}
