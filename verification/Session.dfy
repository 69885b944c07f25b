/** One order session as a state machine. Each action changes memory and appends at most one
    journal record, so the state after an action is the state at one crash point
    (src/execution/oms.py, src/execution/service.py). */
module Sessions {
  import opened Contracts
  import opened Accounting
  import opened Recovery

  datatype Session = Session(orders: Orders, ledger: Balance, seqNo: nat, submitTimes: seq<int>, journal: seq<Record>)

  datatype Action =
    | Skip                                                            // an id was taken, nothing was recorded
    | GateReject(intent: Intent, createdAt: int, code: RejectCode)
    | Place(intent: Intent, createdAt: int, ts: int, sentAt: int)     // gate passed, "intent" recorded
    | Note(kind: AuditKind, id: nat)
    | Answer(id: nat, outcome: Outcome)                               // "submit_result"
    | Adopt(id: nat, ref: BrokerRef)                                  // "unknown_adopted"
    | Book(id: nat, qty: int, amount: int)                            // "fill", cumulative values
    | Move(id: nat, status: OrderStatus)                              // "status"
    | Retire(id: nat)                                                 // "unknown_resolved"
    | Start(holdings: seq<Holding>)                                   // a later "session_start"
    | Mismatch

  /** A run interleaves actions with crashes; after a crash restore_session rebuilds the session. */
  datatype Event = Act(action: Action) | Crash

  // ---------------------------------------------------------------- views

  /** Orders the risk gate refused are kept in memory but leave no intent in the journal. */
  function Visible(orders: Orders): Orders {
    map id | id in orders && !orders[id].reject.ByGate? :: orders[id]
  }

  function Known(orders: Orders): set<string> {
    set id | id in orders && orders[id].Numbered() :: orders[id].ref.no.value
  }

  predicate NoPending(orders: Orders) {
    forall id :: id in orders ==> !orders[id].status.PendingSubmit?
  }

  predicate Unsure(o: Order) { o.status.Unknown? || o.status.PendingSubmit? }

  /** The sum of a weight over the orders with ids 1..n. */
  function Sum(orders: Orders, w: Order -> int, n: nat): int {
    if n == 0 then 0
    else Sum(orders, w, n - 1) + (if n in orders then w(orders[n]) else 0)
  }

  function OpenOf(side: Side, symbol: string): Order -> int {
    (o: Order) => if o.Open() && o.intent.side == side && o.intent.symbol == symbol then o.Remaining() else 0
  }

  function NetFillOf(symbol: string): Order -> int {
    (o: Order) => if o.intent.symbol != symbol then 0 else if o.intent.side.Buy? then o.filledQty else -o.filledQty
  }

  // ---------------------------------------------------------------- transitions

  function Log(s: Session, r: Record): Session { s.(journal := s.journal + [r]) }

  function Put(s: Session, id: nat, o: Order): Session { s.(orders := s.orders[id := o]) }

  function AnswerStatus(k: OutcomeKind): OrderStatus {
    match k
    case OutcomeAccepted => OrderStatus.Accepted
    case OutcomeRejected => Rejected
    case OutcomeUnknown => Unknown
  }

  /** Live code copies the broker's identifiers only from an accepted outcome. */
  function Answered(o: Order, outcome: Outcome): Order {
    match outcome.kind
    case OutcomeAccepted => o.(status := OrderStatus.Accepted, ref := outcome.ref)
    case OutcomeRejected => o.(status := Rejected, reject := ByBroker)
    case OutcomeUnknown => o.(status := Unknown)
  }

  /** The session a restart builds from the journal alone. */
  function Resume(costs: CostModel, journal: seq<Record>): Option<Session> {
    match Restore(journal, false, costs)
    case Success(Recovered(orders, nextSeq, times, Some(ledger))) => Some(Session(orders, ledger, nextSeq, times, journal))
    case _ => None
  }

  function Next(costs: CostModel, s: Session, a: Action): Session {
    match a
    case Skip => s.(seqNo := s.seqNo + 1)
    case GateReject(intent, createdAt, code) =>
      var id := s.seqNo + 1;
      Log(Put(s.(seqNo := id), id, Order(id, intent, Rejected, createdAt, NO_REF, 0, 0, ByGate(code))), RiskReject(id, code))
    case Place(intent, createdAt, ts, sentAt) =>
      var id := s.seqNo + 1;
      Log(Put(s.(seqNo := id, submitTimes := s.submitTimes + [sentAt]), id,
              Order(id, intent, PendingSubmit, createdAt, NO_REF, 0, 0, NotRejected)),
          IntentRecord(ts, id, intent))
    case Note(kind, id) => Log(s, Audit(kind, id))
    case Answer(id, outcome) =>
      if id !in s.orders then s
      else Log(Put(s, id, Answered(s.orders[id], outcome)), SubmitResult(id, outcome, AnswerStatus(outcome.kind)))
    case Adopt(id, ref) =>
      if id !in s.orders then s
      else Log(Put(s, id, s.orders[id].(ref := ref)), UnknownAdopted(id, ref))
    case Book(id, qty, amount) =>
      if id !in s.orders then s
      else
        var o := s.orders[id];
        (match ApplyFill(costs, s.ledger, o.intent.symbol, o.intent.side, qty - o.filledQty, amount - o.filledAmount)
         case Failure(_) => s
         case Success((after, _)) =>
           Log(Put(s.(ledger := after), id, o.(filledQty := qty, filledAmount := amount)),
               FillRecord(id, qty - o.filledQty, amount - o.filledAmount, qty, amount)))
    case Move(id, status) =>
      if id !in s.orders then s
      else Log(Put(s, id, s.orders[id].(status := status)), StatusRecord(id, status, s.orders[id].filledQty))
    case Retire(id) =>
      if id !in s.orders then s
      else Log(Put(s, id, s.orders[id].(status := Rejected, reject := ByOperator)), UnknownResolved(id))
    case Start(holdings) => Log(s, SessionStart(holdings))
    case Mismatch => Log(s, PositionMismatch)
  }

  // ---------------------------------------------------------------- when an action may happen

  /** A broker answer that was not an acceptance carries no identifiers (src/brokers/kis/trading.py). */
  predicate PlainOutcome(outcome: Outcome) {
    !outcome.kind.OutcomeAccepted? ==> outcome.ref == NO_REF
  }

  predicate FreshRef(orders: Orders, ref: BrokerRef) {
    ref.no.Some? && ref.no.value != "" ==> ref.no.value !in Known(orders)
  }

  predicate Enabled(s: Session, a: Action) {
    match a
    case Skip => NoPending(s.orders)
    case GateReject(_, _, _) => NoPending(s.orders)
    case Place(i, _, _, _) =>
      && NoPending(s.orders)
      && i.qty >= 1
      && (forall id :: id in s.orders && s.orders[id].status.Unknown? ==> !s.orders[id].SameKey(i))
      && (i.side.Sell? ==> i.qty <= Held(s.ledger, i.symbol) - Sum(s.orders, OpenOf(Sell, i.symbol), s.seqNo))
    case Note(_, id) => id in Visible(s.orders)
    case Answer(id, outcome) =>
      && id in s.orders && s.orders[id].status.PendingSubmit?
      && PlainOutcome(outcome) && FreshRef(s.orders, outcome.ref)
    case Adopt(id, ref) =>
      && NoPending(s.orders) && id in s.orders && s.orders[id].status.Unknown?
      && ref.no.Some? && ref.no.value != "" && FreshRef(s.orders, ref)
    case Book(id, qty, amount) =>
      && NoPending(s.orders) && id in s.orders && s.orders[id].Open() && s.orders[id].Numbered()
      && s.orders[id].filledQty < qty <= s.orders[id].intent.qty
      && s.orders[id].filledAmount <= amount
    case Move(id, status) =>
      && NoPending(s.orders) && id in s.orders && s.orders[id].Open()
      && Transition(s.orders[id].status, status) == Success(status)
      && StatusFits(status, s.orders[id].filledQty)
    case Retire(id) =>
      && NoPending(s.orders) && id in s.orders && s.orders[id].status.Unknown? && s.orders[id].ref.no.None?
    case Start(_) => NoPending(s.orders)
    case Mismatch => NoPending(s.orders)
  }

  /** The first session of the day: holdings read from the account, then "session_start". */
  ghost predicate Initial(s: Session) {
    exists holdings :: FirstSession(s, holdings)
  }

  predicate FirstSession(s: Session, holdings: seq<Holding>) {
    && HoldingPositions(holdings).Success?
    && s == Session(map[], Balance(0, 0, HoldingPositions(holdings).value), 0, [], [SessionStart(holdings)])
  }

  function Step(costs: CostModel, s: Session, e: Event): Session {
    match e
    case Act(a) => Next(costs, s, a)
    case Crash => if Resume(costs, s.journal).Some? then Resume(costs, s.journal).value else s
  }

  function Exec(costs: CostModel, s: Session, run: seq<Event>): Session {
    if run == [] then s
    else Step(costs, Exec(costs, s, run[..|run| - 1]), run[|run| - 1])
  }

  predicate AllEnabled(costs: CostModel, s: Session, run: seq<Event>) {
    run == [] ||
    (var before, e := run[..|run| - 1], run[|run| - 1];
     AllEnabled(costs, s, before) && (e.Act? ==> Enabled(Exec(costs, s, before), e.action)))
  }

  /** A run leads from one session to another. */
  predicate Reaches(costs: CostModel, s: Session, run: seq<Event>, t: Session) {
    AllEnabled(costs, s, run) && Exec(costs, s, run) == t
  }

  lemma ReachesByAction(costs: CostModel, s: Session, run: seq<Event>, t: Session, a: Action)
    requires Reaches(costs, s, run, t) && Enabled(t, a)
    ensures Reaches(costs, s, run + [Act(a)], Next(costs, t, a))
  {
    assert (run + [Act(a)])[..|run + [Act(a)]| - 1] == run;
  }

  lemma {:induction false} ReachesOn(costs: CostModel, s: Session, run: seq<Event>, t: Session, more: seq<Event>, u: Session)
    requires Reaches(costs, s, run, t) && Reaches(costs, t, more, u)
    ensures Reaches(costs, s, run + more, u)
  {
    if more == [] {
      assert run + more == run;
    } else {
      var init := more[..|more| - 1];
      ReachesOn(costs, s, run, t, init, Exec(costs, t, init));
      assert (run + more)[..|run + more| - 1] == run + init;
    }
  }

  // ---------------------------------------------------------------- sums

  lemma {:induction false} SumUpdate(orders: Orders, w: Order -> int, id: nat, o: Order, n: nat)
    ensures Sum(orders[id := o], w, n) ==
            Sum(orders, w, n) + (if 1 <= id <= n then w(o) - (if id in orders then w(orders[id]) else 0) else 0)
  {
    if n > 0 {
      SumUpdate(orders, w, id, o, n - 1);
    }
  }

  /** Sums agree when every order carries the same weight on both sides; a missing order weighs nothing. */
  lemma {:induction false} SumAgree(a: Orders, b: Orders, w: Order -> int, n: nat)
    requires forall id :: 1 <= id <= n ==>
               (if id in a then w(a[id]) else 0) == (if id in b then w(b[id]) else 0)
    ensures Sum(a, w, n) == Sum(b, w, n)
  {
    if n > 0 {
      SumAgree(a, b, w, n - 1);
    }
  }

  lemma {:induction false} SumBeyond(orders: Orders, w: Order -> int, m: nat, n: nat)
    requires m <= n && forall id :: id in orders ==> id <= m
    ensures Sum(orders, w, n) == Sum(orders, w, m)
  {
    if m < n {
      SumBeyond(orders, w, m, n - 1);
    }
  }

  /** A non-negative weight of one order never exceeds the whole sum. */
  lemma {:induction false} SumCovers(orders: Orders, w: Order -> int, id: nat, n: nat)
    requires 1 <= id <= n && id in orders
    requires forall k :: k in orders ==> w(orders[k]) >= 0
    ensures w(orders[id]) <= Sum(orders, w, n)
  {
    SumNonNegative(orders, w, n - 1);
    if id < n {
      SumCovers(orders, w, id, n - 1);
    }
  }

  lemma {:induction false} SumNonNegative(orders: Orders, w: Order -> int, n: nat)
    requires forall k :: k in orders ==> w(orders[k]) >= 0
    ensures Sum(orders, w, n) >= 0
  {
    if n > 0 {
      SumNonNegative(orders, w, n - 1);
    }
  }
}
