/** Order-execution contracts: orders, broker rows and the order life cycle
    (src/execution/contracts.py). */
module Contracts {

  datatype Option<+T> = None | Some(value: T)

  datatype Result<+T, +E> = Success(value: T) | Failure(error: E)

  datatype Side = Buy | Sell

  datatype OrderType = Limit | Market

  datatype OrderStatus =
    | PendingSubmit | Accepted | PartiallyFilled | Filled | Cancelled | Rejected | Unknown

  datatype OutcomeKind = OutcomeAccepted | OutcomeRejected | OutcomeUnknown

  datatype RejectCode =
    | KillSwitch | AccountMismatch | UnknownPending | SymbolNotAllowed | QtyInvalid | PriceInvalid
    | TradingHalted | TickTableMismatch | PriceOffTick | PriceOutOfBand | OrderRateLimit
    | DailyLossLimit | NotionalLimit | PositionLimit | InsufficientCash | InsufficientPosition

  /** Every way an operation of the order manager can raise. */
  datatype ExecError =
    | SessionClosed
    | NoSuchOrder
    | NotUnknown
    | NoBrokerNumber
    | MatchedAtBroker
    | GatewayRaised
    | FillOutOfRange        // cumulative fill moved backwards or exceeded the order
    | BadBrokerRow          // filled quantity above the row's ordered quantity
    | InvalidFill           // apply_fill: non-positive quantity or negative amount
    | Oversell              // apply_fill: more sold than held
    | IllegalTransition

  datatype Intent = Intent(symbol: string, side: Side, qty: int, orderType: OrderType,
                           limitPrice: Option<int>, tag: string)

  datatype Quote = Quote(symbol: string, last: int, upperLimit: int, lowerLimit: int, tick: int,
                         halted: bool, asks: seq<(int, int)>, bids: seq<(int, int)>)

  /** The broker's identifiers of an order; the three are always assigned together. */
  datatype BrokerRef = BrokerRef(no: Option<string>, org: Option<string>, time: Option<int>)

  const NO_REF := BrokerRef(None, None, None)

  /** What reject_code says: the risk gate, the broker's answer, or the operator. */
  datatype Rejection = NotRejected | ByGate(code: RejectCode) | ByBroker | ByOperator

  /** A client id is represented by its numeric suffix. */
  datatype Order = Order(id: nat, intent: Intent, status: OrderStatus, createdAt: int,
                         ref: BrokerRef, filledQty: int, filledAmount: int, reject: Rejection)
  {
    function Remaining(): int { intent.qty - filledQty }

    predicate Terminal() { TerminalStatus(status) }

    predicate Open() { !TerminalStatus(status) }

    /** A broker number counts only when it is present and not the empty string. */
    predicate Numbered() { ref.no.Some? && ref.no.value != "" }

    predicate SameKey(i: Intent) { intent.symbol == i.symbol && intent.side == i.side }
  }

  /** One row of the broker's order list; quantities and amount are cumulative. */
  datatype Row = Row(no: string, original: string, org: string, symbol: string, side: Side,
                     orderedQty: int, price: int, filledQty: int, filledAmount: int,
                     remainingQty: int, rejectedQty: int, cancelled: bool, orderTime: int)

  datatype Outcome = Outcome(kind: OutcomeKind, ref: BrokerRef)

  datatype Holding = Holding(symbol: string, qty: int, cost: int)

  predicate TerminalStatus(s: OrderStatus) {
    s.Filled? || s.Cancelled? || s.Rejected?
  }

  predicate Allowed(current: OrderStatus, next: OrderStatus) {
    match current
    case PendingSubmit => next.Accepted? || next.Rejected? || next.Unknown?
    case Unknown => next.Accepted? || next.PartiallyFilled? || next.Filled? || next.Cancelled? || next.Rejected?
    case Accepted => next.PartiallyFilled? || next.Filled? || next.Cancelled? || next.Rejected?
    case PartiallyFilled => next.Filled? || next.Cancelled?
    case _ => false
  }

  function Transition(current: OrderStatus, next: OrderStatus): Result<OrderStatus, ExecError> {
    if next == current then Success(current)
    else if Allowed(current, next) then Success(next)
    else Failure(IllegalTransition)
  }

  function DeriveStatus(row: Row, hasCancelChild: bool): Result<OrderStatus, ExecError> {
    if row.filledQty < 0 || row.filledQty > row.orderedQty then Failure(BadBrokerRow)
    else if row.filledQty == row.orderedQty then Success(Filled)
    else
      var cancelEvidence := row.cancelled || hasCancelChild;
      if cancelEvidence || row.rejectedQty > 0 || row.remainingQty == 0 then
        if row.filledQty == 0 && row.rejectedQty > 0 && !cancelEvidence then Success(Rejected)
        else Success(Cancelled)
      else if row.filledQty > 0 then Success(PartiallyFilled)
      else Success(OrderStatus.Accepted)
  }

  /** The status an order holding a given fill can have. */
  predicate StatusFits(s: OrderStatus, filledQty: int) {
    s.PartiallyFilled? ==> filledQty > 0
  }

  /** Whatever a row says, if its fill is not below the order's, the derived status is reachable
      from the order's status: deriving from a later cumulative row is never an illegal move. */
  lemma DerivedMoveIsLegal(status: OrderStatus, filledQty: int, row: Row, hasCancelChild: bool)
    requires !TerminalStatus(status) && !status.PendingSubmit?
    requires StatusFits(status, filledQty) && 0 <= filledQty <= row.filledQty
    ensures DeriveStatus(row, hasCancelChild).Success? ==>
              var next := DeriveStatus(row, hasCancelChild).value;
              && Transition(status, next) == Success(next)
              && StatusFits(next, row.filledQty)
              && !next.PendingSubmit? && !next.Unknown?
              && (next.Accepted? || next.Rejected? ==> row.filledQty == 0)
  {
  }
}
