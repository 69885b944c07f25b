/** What every action of every session keeps, restarts included. */
module Invariants {
  import opened Contracts
  import opened Accounting
  import opened Recovery
  import opened Sessions
  import opened Replay

  predicate OrderOk(id: nat, o: Order) {
    && o.id == id
    && (o.reject.ByGate? ==> o.status.Rejected? && o.ref == NO_REF && o.filledQty == 0 && o.filledAmount == 0)
    && (!o.reject.ByGate? ==> o.intent.qty >= 1 && 0 <= o.filledQty <= o.intent.qty)
    && StatusFits(o.status, o.filledQty)
    && (o.status.PendingSubmit? ==> o.ref == NO_REF && o.reject.NotRejected?)
    && (!o.Numbered() ==> o.filledQty == 0 && o.filledAmount == 0)
  }

  predicate Shape(s: Session) {
    forall id :: id in s.orders ==> 1 <= id <= s.seqNo && OrderOk(id, s.orders[id])
  }

  /** At most one order per symbol and side is in doubt. */
  predicate OneUnsurePerKey(orders: Orders) {
    forall a, b :: a in orders && b in orders && a != b && Unsure(orders[a]) && Unsure(orders[b]) ==>
      !orders[a].SameKey(orders[b].intent)
  }

  /** No two local orders share a broker number. */
  predicate NumbersDistinct(orders: Orders) {
    forall a, b :: a in orders && b in orders && a != b && orders[a].Numbered() && orders[b].Numbered() ==>
      orders[a].ref.no != orders[b].ref.no
  }

  /** Positions are a matter of sums over the orders; records and times do not enter. */
  ghost predicate Covered(orders: Orders, ledger: Balance, n: nat, symbol: string) {
    Sum(orders, OpenOf(Sell, symbol), n) <= Held(ledger, symbol)
  }

  ghost predicate Accounted(orders: Orders, ledger: Balance, start: Balance, n: nat, symbol: string) {
    Held(ledger, symbol) == Held(start, symbol) + Sum(orders, NetFillOf(symbol), n)
  }

  ghost predicate AllCovered(orders: Orders, ledger: Balance, n: nat) {
    forall symbol: string :: Covered(orders, ledger, n, symbol)
  }

  ghost predicate AllAccounted(orders: Orders, ledger: Balance, start: Balance, n: nat) {
    forall symbol: string :: Accounted(orders, ledger, start, n, symbol)
  }

  /** Everything still to be sold is held; each position is what it was at the start of the day plus
      everything bought minus everything sold by the orders; and no money appears or vanishes. */
  ghost predicate Positions(orders: Orders, ledger: Balance, start: Balance, n: nat) {
    && AllCovered(orders, ledger, n)
    && AllAccounted(orders, ledger, start, n)
    && Worth(ledger) == Worth(start)
    && Sound(ledger)
  }

  predicate Exclusive(orders: Orders) { OneUnsurePerKey(orders) && NumbersDistinct(orders) }

  /** What memory alone keeps. */
  ghost predicate Lawful(start: Balance, s: Session) {
    Shape(s) && Exclusive(s.orders) && Positions(s.orders, s.ledger, start, s.seqNo)
  }

  /** And the journal mirrors it. */
  ghost predicate Inv(costs: CostModel, start: Balance, s: Session) {
    && Shape(s)
    && Rebuilds(costs, start, s)
    && Exclusive(s.orders)
    && Positions(s.orders, s.ledger, start, s.seqNo)
  }

  // ---------------------------------------------------------------- the first session

  lemma {:induction false} HoldingsSound(holdings: seq<Holding>)
    requires HoldingPositions(holdings).Success?
    ensures forall k :: k in HoldingPositions(holdings).value ==> SoundPosition(HoldingPositions(holdings).value[k])
  {
    if holdings != [] {
      HoldingsSound(holdings[..|holdings| - 1]);
    }
  }

  lemma InitialInv(costs: CostModel, s: Session)
    requires Initial(s)
    ensures Inv(costs, s.ledger, s)
  {
    var holdings :| FirstSession(s, holdings);
    HoldingsSound(holdings);
    Appended(costs, s.ledger, [], SessionStart(holdings), map[]);
    assert [] + [SessionStart(holdings)] == s.journal;
    assert FirstStart([]) == None;
    assert s.journal[..0] == [];
  }

  // ---------------------------------------------------------------- shape

  lemma ShapeKept(costs: CostModel, s: Session, a: Action)
    requires Shape(s) && Enabled(s, a)
    ensures Shape(Next(costs, s, a))
  {
  }

  // ---------------------------------------------------------------- replay

  lemma AnswerKeeps(costs: CostModel, start: Balance, s: Session, id: nat, outcome: Outcome)
    requires Shape(s) && Rebuilds(costs, start, s) && Enabled(s, Answer(id, outcome))
    ensures Rebuilds(costs, start, Next(costs, s, Answer(id, outcome)))
  {
    RewriteKeeps(costs, start, s, id, Answered(s.orders[id], outcome), SubmitResult(id, outcome, AnswerStatus(outcome.kind)));
  }

  lemma AdoptKeeps(costs: CostModel, start: Balance, s: Session, id: nat, ref: BrokerRef)
    requires Shape(s) && Rebuilds(costs, start, s) && Enabled(s, Adopt(id, ref))
    ensures Rebuilds(costs, start, Next(costs, s, Adopt(id, ref)))
  {
    RewriteKeeps(costs, start, s, id, s.orders[id].(ref := ref), UnknownAdopted(id, ref));
  }

  lemma MoveKeeps(costs: CostModel, start: Balance, s: Session, id: nat, status: OrderStatus)
    requires Shape(s) && Rebuilds(costs, start, s) && Enabled(s, Move(id, status))
    ensures Rebuilds(costs, start, Next(costs, s, Move(id, status)))
  {
    RewriteKeeps(costs, start, s, id, s.orders[id].(status := status), StatusRecord(id, status, s.orders[id].filledQty));
  }

  lemma RetireKeeps(costs: CostModel, start: Balance, s: Session, id: nat)
    requires Shape(s) && Rebuilds(costs, start, s) && Enabled(s, Retire(id))
    ensures Rebuilds(costs, start, Next(costs, s, Retire(id)))
  {
    RewriteKeeps(costs, start, s, id, s.orders[id].(status := Rejected, reject := ByOperator), UnknownResolved(id));
  }

  lemma RebuildsKept(costs: CostModel, start: Balance, s: Session, a: Action)
    requires Shape(s) && Rebuilds(costs, start, s) && Enabled(s, a)
    ensures Rebuilds(costs, start, Next(costs, s, a))
  {
    match a
    case Skip =>
    case GateReject(intent, createdAt, code) => GateRejectKeeps(costs, start, s, intent, createdAt, code);
    case Place(intent, createdAt, ts, sentAt) => PlaceKeeps(costs, start, s, intent, createdAt, ts, sentAt);
    case Note(kind, id) => PlainRecordKeeps(costs, start, s, Audit(kind, id));
    case Answer(id, outcome) => AnswerKeeps(costs, start, s, id, outcome);
    case Adopt(id, ref) => AdoptKeeps(costs, start, s, id, ref);
    case Book(id, qty, amount) => BookKeeps(costs, start, s, id, qty, amount);
    case Move(id, status) => MoveKeeps(costs, start, s, id, status);
    case Retire(id) => RetireKeeps(costs, start, s, id);
    case Start(holdings) => PlainRecordKeeps(costs, start, s, SessionStart(holdings));
    case Mismatch => PlainRecordKeeps(costs, start, s, PositionMismatch);
  }

  // ---------------------------------------------------------------- exclusivity

  lemma RewriteExclusive(orders: Orders, id: nat, o: Order)
    requires Exclusive(orders) && id in orders && o.intent == orders[id].intent
    requires Unsure(o) ==> Unsure(orders[id])
    requires o.Numbered() ==> o.ref == orders[id].ref || o.ref.no.value !in Known(orders)
    ensures Exclusive(orders[id := o])
  {
  }

  lemma InsertExclusive(orders: Orders, id: nat, o: Order)
    requires Exclusive(orders) && id !in orders && !o.Numbered()
    requires Unsure(o) ==> forall k :: k in orders && Unsure(orders[k]) ==> !orders[k].SameKey(o.intent)
    ensures Exclusive(orders[id := o])
  {
  }

  lemma RestartExclusive(r: Session, s: Session)
    requires Exclusive(s.orders) && Continues(r, s)
    ensures Exclusive(r.orders)
  {
  }

  lemma ExclusiveKept(costs: CostModel, s: Session, a: Action)
    requires Shape(s) && Enabled(s, a) && Exclusive(s.orders)
    ensures Exclusive(Next(costs, s, a).orders)
  {
    match a
    case GateReject(intent, createdAt, code) =>
      InsertExclusive(s.orders, s.seqNo + 1, Order(s.seqNo + 1, intent, Rejected, createdAt, NO_REF, 0, 0, ByGate(code)));
    case Place(intent, createdAt, ts, sentAt) =>
      InsertExclusive(s.orders, s.seqNo + 1, Order(s.seqNo + 1, intent, PendingSubmit, createdAt, NO_REF, 0, 0, NotRejected));
    case Answer(id, outcome) => RewriteExclusive(s.orders, id, Answered(s.orders[id], outcome));
    case Adopt(id, ref) => RewriteExclusive(s.orders, id, s.orders[id].(ref := ref));
    case Book(id, qty, amount) =>
      RewriteExclusive(s.orders, id, s.orders[id].(filledQty := qty, filledAmount := amount));
    case Move(id, status) => RewriteExclusive(s.orders, id, s.orders[id].(status := status));
    case Retire(id) => RewriteExclusive(s.orders, id, s.orders[id].(status := Rejected, reject := ByOperator));
    case _ =>
  }

  // ---------------------------------------------------------------- positions

  /** Rewriting one order without touching its fill or reopening it. */
  lemma RewriteSums(orders: Orders, id: nat, o: Order, n: nat, symbol: string)
    requires id in orders && o.intent == orders[id].intent && o.filledQty == orders[id].filledQty
    requires o.Open() ==> orders[id].Open()
    requires orders[id].Open() ==> orders[id].Remaining() >= 0
    ensures Sum(orders[id := o], OpenOf(Sell, symbol), n) <= Sum(orders, OpenOf(Sell, symbol), n)
    ensures Sum(orders[id := o], NetFillOf(symbol), n) == Sum(orders, NetFillOf(symbol), n)
  {
    SumUpdate(orders, OpenOf(Sell, symbol), id, o, n);
    SumUpdate(orders, NetFillOf(symbol), id, o, n);
  }

  lemma RewritePositions(orders: Orders, ledger: Balance, start: Balance, n: nat, id: nat, o: Order)
    requires Positions(orders, ledger, start, n)
    requires id in orders && o.intent == orders[id].intent && o.filledQty == orders[id].filledQty
    requires o.Open() ==> orders[id].Open()
    requires orders[id].Open() ==> orders[id].Remaining() >= 0
    ensures Positions(orders[id := o], ledger, start, n)
  {
    var after := orders[id := o];
    forall symbol: string
      ensures Covered(after, ledger, n, symbol) && Accounted(after, ledger, start, n, symbol)
    {
      assert Covered(orders, ledger, n, symbol) && Accounted(orders, ledger, start, n, symbol);
      RewriteSums(orders, id, o, n, symbol);
    }
  }

  lemma InsertSums(orders: Orders, o: Order, n: nat, symbol: string)
    requires o.filledQty == 0
    requires n + 1 !in orders
    ensures Sum(orders[n + 1 := o], OpenOf(Sell, symbol), n + 1)
            == Sum(orders, OpenOf(Sell, symbol), n)
               + (if o.Open() && o.intent.side.Sell? && o.intent.symbol == symbol then o.intent.qty else 0)
    ensures Sum(orders[n + 1 := o], NetFillOf(symbol), n + 1) == Sum(orders, NetFillOf(symbol), n)
  {
    SumUpdate(orders, OpenOf(Sell, symbol), n + 1, o, n);
    SumUpdate(orders, NetFillOf(symbol), n + 1, o, n);
  }

  /** A new order with no fill, which the position covers if it sells. */
  lemma InsertPositions(orders: Orders, ledger: Balance, start: Balance, n: nat, o: Order)
    requires Positions(orders, ledger, start, n)
    requires n + 1 !in orders && o.filledQty == 0
    requires o.Open() && o.intent.side.Sell? ==>
               o.intent.qty <= Held(ledger, o.intent.symbol) - Sum(orders, OpenOf(Sell, o.intent.symbol), n)
    ensures Positions(orders[n + 1 := o], ledger, start, n + 1)
  {
    var m := n + 1;
    var after := orders[m := o];
    forall symbol: string
      ensures Covered(after, ledger, m, symbol) && Accounted(after, ledger, start, m, symbol)
    {
      assert Covered(orders, ledger, n, symbol) && Accounted(orders, ledger, start, n, symbol);
      InsertSums(orders, o, n, symbol);
    }
  }

  /** The oversell branch of the ledger is out of reach: an order's remaining quantity is held. */
  lemma SellCovered(s: Session, id: nat)
    requires Shape(s) && AllCovered(s.orders, s.ledger, s.seqNo)
    requires id in s.orders && s.orders[id].Open() && s.orders[id].intent.side.Sell?
    ensures s.orders[id].Remaining() <= Held(s.ledger, s.orders[id].intent.symbol)
  {
    var symbol := s.orders[id].intent.symbol;
    assert Covered(s.orders, s.ledger, s.seqNo, symbol);
    SumCovers(s.orders, OpenOf(Sell, symbol), id, s.seqNo);
  }

  lemma BookSucceeds(costs: CostModel, s: Session, id: nat, qty: int, amount: int)
    requires Shape(s) && AllCovered(s.orders, s.ledger, s.seqNo) && Enabled(s, Book(id, qty, amount))
    ensures var o := s.orders[id];
            ApplyFill(costs, s.ledger, o.intent.symbol, o.intent.side, qty - o.filledQty, amount - o.filledAmount).Success?
  {
    if s.orders[id].intent.side.Sell? {
      SellCovered(s, id);
    }
  }

  lemma BookSums(orders: Orders, id: nat, qty: int, amount: int, n: nat, symbol: string)
    requires id in orders && orders[id].Open() && 1 <= id <= n
    ensures var o := orders[id];
            var after := orders[id := o.(filledQty := qty, filledAmount := amount)];
            var moved := if o.intent.symbol == symbol then qty - o.filledQty else 0;
            && Sum(after, OpenOf(Sell, symbol), n)
               == Sum(orders, OpenOf(Sell, symbol), n) - (if o.intent.side.Sell? then moved else 0)
            && Sum(after, NetFillOf(symbol), n)
               == Sum(orders, NetFillOf(symbol), n) + (if o.intent.side.Buy? then moved else -moved)
  {
    var o' := orders[id].(filledQty := qty, filledAmount := amount);
    SumUpdate(orders, OpenOf(Sell, symbol), id, o', n);
    SumUpdate(orders, NetFillOf(symbol), id, o', n);
  }

  /** What one booked fill does to the ledger, told without the ledger's arithmetic. */
  ghost predicate Moved(before: Balance, after: Balance, i: Intent, qty: int) {
    && Worth(after) == Worth(before)
    && Sound(after)
    && Held(after, i.symbol) == Held(before, i.symbol) + (if i.side.Buy? then qty else -qty)
    && (forall k :: k != i.symbol ==> Held(after, k) == Held(before, k))
  }

  lemma FillMoves(costs: CostModel, b: Balance, i: Intent, qty: int, amount: int)
    requires SoundCosts(costs) && Sound(b)
    requires ApplyFill(costs, b, i.symbol, i.side, qty, amount).Success?
    ensures Moved(b, ApplyFill(costs, b, i.symbol, i.side, qty, amount).value.0, i, qty)
  {
    FillConserves(costs, b, i.symbol, i.side, qty, amount);
  }

  lemma BookPositions(orders: Orders, ledger: Balance, after: Balance, start: Balance, n: nat, id: nat, qty: int, amount: int)
    requires Positions(orders, ledger, start, n)
    requires id in orders && orders[id].Open() && 1 <= id <= n && orders[id].filledQty <= qty
    requires Moved(ledger, after, orders[id].intent, qty - orders[id].filledQty)
    ensures Positions(orders[id := orders[id].(filledQty := qty, filledAmount := amount)], after, start, n)
  {
    var orders' := orders[id := orders[id].(filledQty := qty, filledAmount := amount)];
    forall symbol: string
      ensures Covered(orders', after, n, symbol) && Accounted(orders', after, start, n, symbol)
    {
      assert Covered(orders, ledger, n, symbol) && Accounted(orders, ledger, start, n, symbol);
      BookSums(orders, id, qty, amount, n, symbol);
    }
  }

  lemma BookKeepsPositions(costs: CostModel, start: Balance, s: Session, id: nat, qty: int, amount: int)
    requires SoundCosts(costs)
    requires Shape(s) && Positions(s.orders, s.ledger, start, s.seqNo) && Enabled(s, Book(id, qty, amount))
    ensures var s' := Next(costs, s, Book(id, qty, amount)); Positions(s'.orders, s'.ledger, start, s'.seqNo)
  {
    var o := s.orders[id];
    var dq, da := qty - o.filledQty, amount - o.filledAmount;
    BookSucceeds(costs, s, id, qty, amount);
    FillMoves(costs, s.ledger, o.intent, dq, da);
    BookPositions(s.orders, s.ledger, ApplyFill(costs, s.ledger, o.intent.symbol, o.intent.side, dq, da).value.0,
                  start, s.seqNo, id, qty, amount);
  }

  lemma RestartSums(r: Session, s: Session, symbol: string)
    requires Shape(s) && Continues(r, s)
    ensures Sum(r.orders, OpenOf(Sell, symbol), r.seqNo) == Sum(s.orders, OpenOf(Sell, symbol), s.seqNo)
    ensures Sum(r.orders, NetFillOf(symbol), r.seqNo) == Sum(s.orders, NetFillOf(symbol), s.seqNo)
  {
    SumAgree(r.orders, s.orders, OpenOf(Sell, symbol), s.seqNo);
    SumAgree(r.orders, s.orders, NetFillOf(symbol), s.seqNo);
    SumBeyond(r.orders, OpenOf(Sell, symbol), r.seqNo, s.seqNo);
    SumBeyond(r.orders, NetFillOf(symbol), r.seqNo, s.seqNo);
  }

  lemma RestartPositions(start: Balance, s: Session, r: Session)
    requires Shape(s) && Positions(s.orders, s.ledger, start, s.seqNo) && Continues(r, s)
    ensures Positions(r.orders, r.ledger, start, r.seqNo)
  {
    forall symbol: string
      ensures Covered(r.orders, r.ledger, r.seqNo, symbol) && Accounted(r.orders, r.ledger, start, r.seqNo, symbol)
    {
      assert Covered(s.orders, s.ledger, s.seqNo, symbol) && Accounted(s.orders, s.ledger, start, s.seqNo, symbol);
      RestartSums(r, s, symbol);
    }
  }

  lemma SkipPositions(orders: Orders, ledger: Balance, start: Balance, n: nat)
    requires Positions(orders, ledger, start, n) && n + 1 !in orders
    ensures Positions(orders, ledger, start, n + 1)
  {
    var m := n + 1;
    forall symbol: string
      ensures Covered(orders, ledger, m, symbol) && Accounted(orders, ledger, start, m, symbol)
    {
      assert Covered(orders, ledger, n, symbol) && Accounted(orders, ledger, start, n, symbol);
    }
  }

  lemma PositionsKept(costs: CostModel, start: Balance, s: Session, a: Action)
    requires SoundCosts(costs)
    requires Shape(s) && Positions(s.orders, s.ledger, start, s.seqNo) && Enabled(s, a)
    ensures var s' := Next(costs, s, a); Positions(s'.orders, s'.ledger, start, s'.seqNo)
  {
    match a
    case Skip => SkipPositions(s.orders, s.ledger, start, s.seqNo);
    case GateReject(intent, createdAt, code) =>
      InsertPositions(s.orders, s.ledger, start, s.seqNo,
                      Order(s.seqNo + 1, intent, Rejected, createdAt, NO_REF, 0, 0, ByGate(code)));
    case Place(intent, createdAt, ts, sentAt) =>
      InsertPositions(s.orders, s.ledger, start, s.seqNo,
                      Order(s.seqNo + 1, intent, PendingSubmit, createdAt, NO_REF, 0, 0, NotRejected));
    case Answer(id, outcome) =>
      RewritePositions(s.orders, s.ledger, start, s.seqNo, id, Answered(s.orders[id], outcome));
    case Adopt(id, ref) => RewritePositions(s.orders, s.ledger, start, s.seqNo, id, s.orders[id].(ref := ref));
    case Book(id, qty, amount) => BookKeepsPositions(costs, start, s, id, qty, amount);
    case Move(id, status) =>
      RewritePositions(s.orders, s.ledger, start, s.seqNo, id, s.orders[id].(status := status));
    case Retire(id) =>
      RewritePositions(s.orders, s.ledger, start, s.seqNo, id, s.orders[id].(status := Rejected, reject := ByOperator));
    case _ =>
  }

  // ---------------------------------------------------------------- whole runs

  lemma ActionLawful(costs: CostModel, start: Balance, s: Session, a: Action)
    requires SoundCosts(costs) && Lawful(start, s) && Enabled(s, a)
    ensures Lawful(start, Next(costs, s, a))
  {
    ShapeKept(costs, s, a);
    ExclusiveKept(costs, s, a);
    PositionsKept(costs, start, s, a);
  }

  /** Every action keeps every invariant. */
  lemma ActionInv(costs: CostModel, start: Balance, s: Session, a: Action)
    requires SoundCosts(costs) && Inv(costs, start, s) && Enabled(s, a)
    ensures Inv(costs, start, Next(costs, s, a))
  {
    ActionLawful(costs, start, s, a);
    RebuildsKept(costs, start, s, a);
  }

  /** A crash at any point is survived: the rebuilt session satisfies them again. */
  lemma CrashInv(costs: CostModel, start: Balance, s: Session)
    requires Inv(costs, start, s)
    ensures Resume(costs, s.journal).Some?
    ensures Continues(Resume(costs, s.journal).value, s)
    ensures Inv(costs, start, Resume(costs, s.journal).value)
  {
    RestoreContinues(costs, start, s);
    var r := Resume(costs, s.journal).value;
    RestartExclusive(r, s);
    RestartPositions(start, s, r);
    RestartShape(r, s);
  }

  lemma RestartShape(r: Session, s: Session)
    requires Shape(s) && Continues(r, s)
    ensures Shape(r)
  {
  }

  /** So every state of every run satisfies them. */
  lemma {:induction false} RunInv(costs: CostModel, start: Balance, s: Session, run: seq<Event>)
    requires SoundCosts(costs) && Inv(costs, start, s) && AllEnabled(costs, s, run)
    ensures Inv(costs, start, Exec(costs, s, run))
  {
    if run != [] {
      var before, e := run[..|run| - 1], run[|run| - 1];
      RunInv(costs, start, s, before);
      if e.Act? {
        ActionInv(costs, start, Exec(costs, s, before), e.action);
      } else {
        CrashInv(costs, start, Exec(costs, s, before));
      }
    }
  }
}
