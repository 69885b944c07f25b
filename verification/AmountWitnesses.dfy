/** Days of an honest broker on which an order in doubt is moved to another row of the same quantity and another amount:
    one after which the session cannot be restarted, one on which a closed order changes at a restart, and two on which a
    rerun reconcile does not bring the amount back. */
module AmountWitnesses {
  import opened Contracts
  import opened Accounting
  import opened Recovery
  import opened Sessions
  import opened Replay
  import opened Invariants
  import opened Reconciling
  import opened Adoption
  import opened ExactlyOnce
  import opened Restating
  import opened RestartedReconcile
  import opened CatchingUp
  import opened Repeating
  import opened Guarantees
  import opened Operations
  import opened WorkingDays
  import opened HonestBroker
  import opened Restarts
  import opened Witnesses

  /** A row of the order, filled in part for the given amount, and perhaps cancelled. */
  function RowFilled(no: string, filled: int, amount: int, cancelled: bool): Row {
    RowNo(no, filled).(filledAmount := amount, cancelled := cancelled)
  }

  const ONE_ROW := [RowFilled("1", 5, 500, false)]

  const OTHER_ROW := [RowFilled("1", 5, 500, false), RowFilled("2", 5, 505, false)]

  const OTHER_FILLED := [RowFilled("1", 5, 500, false), RowFilled("2", 7, 705, false)]

  const CLOSED_ROW := [RowFilled("2", 5, 505, true)]

  // ---------------------------------------------------------------- the crash inside the first reconcile

  lemma OnlyRow(sent: Session)
    requires sent.orders == map[1 := Doubtful(1, NO_REF, 0)]
    ensures Known(sent.orders) == {} && Candidates(sent.orders[1], ONE_ROW, {}) == ONE_ROW
  {
    OnlyCandidate(sent.orders[1], ONE_ROW, {}, 0);
  }

  lemma FirstAdoption(costs: CostModel, sent: Session)
    requires sent.orders == map[1 := Doubtful(1, NO_REF, 0)] && sent.seqNo == 1
    ensures AdoptTo(costs, sent, ONE_ROW, 1).0 == Next(costs, sent, Adopt(1, RefOf(RowNo("1", 5))))
  {
    OnlyRow(sent);
    assert AdoptTo(costs, sent, ONE_ROW, 0) == (sent, {});
  }

  /** The first reconcile writes the adoption, the fill and then the status. */
  lemma FirstReconcile(costs: CostModel, sent: Session)
    requires sent.orders == map[1 := Doubtful(1, NO_REF, 0)] && sent.seqNo == 1
    ensures Live(costs, sent, 5).journal <= Reconcile(costs, sent, ONE_ROW).0.journal
    ensures |Live(costs, sent, 5).journal| == |sent.journal| + 2
  {
    var mid := Next(costs, sent, Adopt(1, RefOf(RowNo("1", 5))));
    FirstAdoption(costs, sent);
    assert mid.orders == map[1 := Doubtful(1, RefOf(RowNo("1", 5)), 0)];
    assert ONE_ROW[..0] == [];
    assert RowOf(ONE_ROW, "1") == Some(ONE_ROW[0]);
    assert !HasCancelChild(ONE_ROW, "1");
    assert DeriveStatus(ONE_ROW[0], false) == Success(PartiallyFilled);
    assert SyncTo(costs, mid, ONE_ROW, 0) == (mid, None);
    assert SyncOne(costs, mid, ONE_ROW, 1) == (Next(costs, Live(costs, sent, 5), Move(1, PartiallyFilled)), None);
    assert SyncTo(costs, mid, ONE_ROW, 1) == SyncOne(costs, mid, ONE_ROW, 1);
  }

  lemma SendOperates(costs: CostModel, first: Session) returns (ops: seq<Operation>)
    requires SoundCosts(costs) && FirstSession(first, [])
    ensures Working(costs, first, ops) && OperateAll(costs, first, ops) == Sent(costs, first)
    ensures |ops| == 2 && ops[0].Do? && ops[1].Do?
    ensures Sent(costs, first).orders == map[1 := Doubtful(1, NO_REF, 0)] && Sent(costs, first).seqNo == 1
  {
    assert Working(costs, first, []);
    var place, answer := Place(TEN, 0, 0, 0), Answer(1, UNANSWERED);
    OperateOn(costs, first, [], Do(place));
    ops := [] + [Do(place)];
    OperateOn(costs, first, ops, Do(answer));
    ops := ops + [Do(answer)];
  }

  /** The day so far as operations: a send nobody answered, and a reconcile that was cut after its fill record. */
  lemma CutDay(costs: CostModel, first: Session) returns (ops: seq<Operation>, s: Session)
    requires SoundCosts(costs) && FirstSession(first, [])
    ensures Working(costs, first, ops) && OperateAll(costs, first, ops) == s && |ops| == 3
    ensures ops[0].Do? && ops[1].Do? && ops[2].FallIn? && ops[2].rows == ONE_ROW
    ensures Crashed(s, 5) && Inv(costs, first.ledger, s)
  {
    var run;
    run, s := AdoptedAndCrashed(costs, first, 5);
    assert Inv(costs, first.ledger, s) by { DayInv(costs, first, run); }
    ops := SendOperates(costs, first);
    var sent := Sent(costs, first);
    FirstReconcile(costs, sent);
    var n := |sent.journal| + 2;
    assert Reconcile(costs, sent, ONE_ROW).0.journal[..n] == Live(costs, sent, 5).journal;
    OperateOn(costs, first, ops, FallIn(ONE_ROW, n));
    ops := ops + [FallIn(ONE_ROW, n)];
  }

  // ---------------------------------------------------------------- moved to a row of another amount

  lemma TwoRowsOf(rows: seq<Row>)
    requires rows == OTHER_ROW || rows == OTHER_FILLED
    ensures GoodSnapshot(rows) && UnfilledIsFree(rows) && RowOf(rows, "2") == Some(rows[1]) && !HasCancelChild(rows, "2")
  {
  }

  /** The order once it is moved to row "2". */
  function Moved(filled: int, amount: int, status: OrderStatus): Order {
    Doubtful(1, RefOf(RowNo("2", 0)), filled).(filledAmount := amount, status := status)
  }

  lemma MovesOver(costs: CostModel, s: Session)
    requires Crashed(s, 5)
    ensures Midway(costs, s, OTHER_ROW).orders == map[1 := Moved(5, 500, Unknown)]
    ensures Midway(costs, s, OTHER_ROW).ledger == s.ledger && Midway(costs, s, OTHER_ROW).seqNo == 1
  {
    TwoRowsOf(OTHER_ROW);
    assert Known(s.orders) == {"1"} by { CrashedFacts(s, 5); }
    OnlyCandidate(s.orders[1], OTHER_ROW, {"1"}, 1);
    LoopDecidesAtOnce(costs, s, OTHER_ROW, 1);
    assert Adopted(s.orders, OTHER_ROW, 1) == map[1 := Moved(5, 500, Unknown)];
  }

  /** The first list: the order is moved, and the amount of row "2" stored unrecorded. */
  lemma StoresAmount(costs: CostModel, s: Session)
    requires Crashed(s, 5)
    ensures var (t, err) := Reconcile(costs, s, OTHER_ROW);
            err.None? && t.orders == map[1 := Moved(5, 505, PartiallyFilled)] && t.ledger == s.ledger && t.seqNo == 1
  {
    var mid := Midway(costs, s, OTHER_ROW);
    MovesOver(costs, s);
    TwoRowsOf(OTHER_ROW);
    assert DeriveStatus(OTHER_ROW[1], false) == Success(PartiallyFilled);
    assert SyncTo(costs, mid, OTHER_ROW, 0) == (mid, None);
    var half := Put(mid, 1, Moved(5, 505, Unknown));
    assert SyncOne(costs, mid, OTHER_ROW, 1) == (Next(costs, half, Move(1, PartiallyFilled)), None);
    assert SyncTo(costs, mid, OTHER_ROW, 1) == SyncOne(costs, mid, OTHER_ROW, 1);
  }

  /** The second list: a fill is booked on top of it. */
  lemma BooksOnTop(costs: CostModel, t: Session)
    requires t.orders == map[1 := Moved(5, 505, PartiallyFilled)] && t.seqNo == 1
    ensures var (u, err) := Reconcile(costs, t, OTHER_FILLED);
            && err.None? && t.journal + [FillRecord(1, 2, 200, 7, 705)] <= u.journal
  {
    TwoRowsOf(OTHER_FILLED);
    assert AdoptTo(costs, t, OTHER_FILLED, 0).0 == t;
    assert AdoptTo(costs, t, OTHER_FILLED, 1).0 == t;
    assert DeriveStatus(OTHER_FILLED[1], false) == Success(PartiallyFilled);
    assert SyncTo(costs, t, OTHER_FILLED, 0) == (t, None);
    var booked := Next(costs, t, Book(1, 7, 705));
    assert booked.journal == t.journal + [FillRecord(1, 2, 200, 7, 705)];
    assert SyncOne(costs, t, OTHER_FILLED, 1) == (Next(costs, booked, Move(1, PartiallyFilled)), None);
    assert SyncTo(costs, t, OTHER_FILLED, 1) == SyncOne(costs, t, OTHER_FILLED, 1);
  }

  /** What is on record after the first list is the old amount. */
  lemma OldAmountOnRecord(costs: CostModel, start: Balance, s: Session)
    requires SoundCosts(costs) && Inv(costs, start, s) && Crashed(s, 5)
    ensures OnRecord(Reconcile(costs, s, OTHER_ROW).0.journal, 1, 500)
  {
    var t := Reconcile(costs, s, OTHER_ROW).0;
    TwoRowsOf(OTHER_ROW);
    assert Rebuilds(costs, start, Trail(s, s, t)) by { var run := ReconcileRunsAside(costs, start, s, OTHER_ROW); }
    StoresAmount(costs, s);
    MirroredOnRecord(costs, start, Trail(s, s, t), 1);
  }

  lemma RestoreRefuses(costs: CostModel, journal: seq<Record>, more: seq<Record>, fill: Record, amount: int)
    requires fill.FillRecord? && OnRecord(journal, fill.id, amount) && fill.cumAmount - fill.deltaAmount != amount
    requires journal + [fill] <= more
    ensures Restore(more, false, costs) == Failure(InconsistentFill)
  {
    FillContradicts(journal, fill, amount);
    assert more[..|journal| + 1] == journal + [fill];
    FailureSticks(more, |journal| + 1);
  }

  lemma ListsAgree()
    ensures Agree(ONE_ROW, ONE_ROW) && Agree(ONE_ROW, OTHER_ROW) && Agree(ONE_ROW, OTHER_FILLED)
    ensures Agree(OTHER_ROW, OTHER_ROW) && Agree(OTHER_ROW, OTHER_FILLED) && Agree(OTHER_FILLED, OTHER_FILLED)
    ensures UnfilledIsFree(ONE_ROW) && UnfilledIsFree(OTHER_ROW) && UnfilledIsFree(OTHER_FILLED)
  {
  }

  lemma HonestOps(ops: seq<Operation>)
    requires |ops| == 5 && ops[0].Do? && ops[1].Do? && ops[2].FallIn? && ops[2].rows == ONE_ROW
    requires ops[3] == DoReconcile(OTHER_ROW) && ops[4] == DoReconcile(OTHER_FILLED)
    ensures Honest(ops)
  {
    ListsAgree();
    assert ListOf(ops[0]).None? && ListOf(ops[1]).None?;
    assert ListOf(ops[2]) == Some(ONE_ROW) && ListOf(ops[3]) == Some(OTHER_ROW) && ListOf(ops[4]) == Some(OTHER_FILLED);
  }

  /** THE SESSION CANNOT BE RESTARTED. An order in doubt adopted row "1" with five shares and the process crashed; the
      next list shows row "2" with five shares as well, for 505; the next one shows it with seven for 705. The broker
      restates nothing and no reconcile raises, and the restore refuses the journal. */
  lemma UnreadableDay(costs: CostModel, first: Session) returns (ops: seq<Operation>)
    requires SoundCosts(costs) && FirstSession(first, [])
    ensures Working(costs, first, ops) && Honest(ops) && |ops| == 5
    ensures ops[3] == DoReconcile(OTHER_ROW) && Reconcile(costs, At(costs, first, ops, 3), OTHER_ROW).1.None?
    ensures ops[4] == DoReconcile(OTHER_FILLED) && Reconcile(costs, At(costs, first, ops, 4), OTHER_FILLED).1.None?
    ensures Restore(OperateAll(costs, first, ops).journal, false, costs) == Failure(InconsistentFill)
  {
    var cut, s := CutDay(costs, first);
    var t := Reconcile(costs, s, OTHER_ROW).0;
    StoresAmount(costs, s);
    OldAmountOnRecord(costs, first.ledger, s);
    BooksOnTop(costs, t);
    var u := Reconcile(costs, t, OTHER_FILLED).0;
    RestoreRefuses(costs, t.journal, u.journal, FillRecord(1, 2, 200, 7, 705), 500);
    ops := TwoReconciles(costs, first, cut, s, t);
    HonestOps(ops);
  }

  lemma TwoReconciles(costs: CostModel, first: Session, cut: seq<Operation>, s: Session, t: Session) returns (ops: seq<Operation>)
    requires Working(costs, first, cut) && OperateAll(costs, first, cut) == s && |cut| == 3
    requires NoPending(s.orders) && Reconcile(costs, s, OTHER_ROW).0 == t && NoPending(t.orders)
    ensures Working(costs, first, ops) && |ops| == 5 && cut <= ops
    ensures ops[3] == DoReconcile(OTHER_ROW) && ops[4] == DoReconcile(OTHER_FILLED)
    ensures At(costs, first, ops, 3) == s && At(costs, first, ops, 4) == t
    ensures OperateAll(costs, first, ops) == Reconcile(costs, t, OTHER_FILLED).0
  {
    TwoRowsOf(OTHER_ROW);
    TwoRowsOf(OTHER_FILLED);
    OperateOn(costs, first, cut, DoReconcile(OTHER_ROW));
    var more := cut + [DoReconcile(OTHER_ROW)];
    OperateOn(costs, first, more, DoReconcile(OTHER_FILLED));
    ops := more + [DoReconcile(OTHER_FILLED)];
    assert ops[..3] == cut && ops[..4] == more;
  }

  // ---------------------------------------------------------------- closed by a row of another amount

  lemma ClosedRowFacts()
    ensures GoodSnapshot(CLOSED_ROW) && UnfilledIsFree(CLOSED_ROW) && RowOf(CLOSED_ROW, "2") == Some(CLOSED_ROW[0])
    ensures DeriveStatus(CLOSED_ROW[0], HasCancelChild(CLOSED_ROW, "2")) == Success(Cancelled)
  {
    assert CLOSED_ROW[..0] == [];
  }

  lemma ClosedRowTaken()
    ensures RowFor(Moved(5, 500, Unknown), CLOSED_ROW) == Some(CLOSED_ROW[0])
    ensures Taken(Moved(5, 500, Unknown), CLOSED_ROW) == Moved(5, 505, Cancelled)
    ensures Readable(Moved(5, 500, Unknown), CLOSED_ROW) && !AmountStands(Moved(5, 500, Unknown), CLOSED_ROW)
  {
    ClosedRowFacts();
  }

  lemma ClosedRowAdopted(s: Session)
    requires Crashed(s, 5)
    ensures Adopted(s.orders, CLOSED_ROW, 1) == map[1 := Moved(5, 500, Unknown)]
  {
    assert Known(s.orders) == {"1"} by { CrashedFacts(s, 5); }
    OnlyCandidate(s.orders[1], CLOSED_ROW, {"1"}, 0);
  }

  lemma ClosedRowReached()
    ensures var mid := map[1 := Moved(5, 500, Unknown)];
            Reached(mid, CLOSED_ROW, 1) && TakenTo(mid, CLOSED_ROW, 1) == map[1 := Moved(5, 505, Cancelled)]
  {
    ClosedRowTaken();
  }

  /** The order is moved to row "2" and closed by it. */
  lemma ClosesMoved(costs: CostModel, start: Balance, s: Session)
    requires SoundCosts(costs) && Inv(costs, start, s) && Crashed(s, 5)
    ensures Ready(costs, start, s, CLOSED_ROW)
    ensures var (t, err) := Reconcile(costs, s, CLOSED_ROW); err.None? && t.orders == map[1 := Moved(5, 505, Cancelled)]
  {
    ClosedRowFacts();
    ClosedRowReached();
    ClosedRowAdopted(s);
    ReconcileTakes(costs, start, s, CLOSED_ROW);
    MidwayIsReady(costs, start, s, CLOSED_ROW);
    SyncDecidesAtOnce(costs, start, Midway(costs, s, CLOSED_ROW), CLOSED_ROW, 1);
  }

  lemma LosesMoved(costs: CostModel, start: Balance, s: Session)
    requires Inv(costs, start, s) && Crashed(s, 5)
    ensures Kept(costs, start, s) && Legible(s) && Recorded(s) == s && FillsFit(s, CLOSED_ROW) && !Lossless(s, CLOSED_ROW)
  {
    KeptBy(costs, start, s, s);
    ClosedRowAdopted(s);
    ClosedRowClosesOff();
    assert 1 in Adopted(s.orders, CLOSED_ROW, 1);
  }

  lemma ClosedRowClosesOff()
    ensures ClosedOff(map[1 := Moved(5, 500, Unknown)], CLOSED_ROW, 1, 500)
  {
    ClosedRowTaken();
    ClosedRowReached();
  }

  /** The only order in doubt is not tempted by its own number: the list does not show it. */
  lemma ClosedRowRepeatable(s: Session)
    requires Crashed(s, 5)
    ensures Repeatable(s.orders, CLOSED_ROW)
  {
    assert s.orders[1].ref.no == Some("1") && CLOSED_ROW[0].no == "2";
  }

  /** AN AMOUNT IS LOST. The next list shows only row "2", cancelled after five shares for 505. The order is moved and
      closed by it; a restart after the last record has the amount 500 for good. */
  lemma AmountLostDay(costs: CostModel, first: Session) returns (ops: seq<Operation>, s: Session)
    requires SoundCosts(costs) && FirstSession(first, [])
    ensures Working(costs, first, ops) && OperateAll(costs, first, ops) == s
    ensures Ready(costs, first.ledger, s, CLOSED_ROW) && OneClock(s) && Repeatable(s.orders, CLOSED_ROW)
    ensures !SameAfterCut(costs, s, CLOSED_ROW, |Reconcile(costs, s, CLOSED_ROW).0.journal|)
  {
    ops, s := CutDay(costs, first);
    ClosesMoved(costs, first.ledger, s);
    LosesMoved(costs, first.ledger, s);
    ClosedRowRepeatable(s);
    AmountIsLost(costs, first.ledger, s, CLOSED_ROW);
  }

  // ---------------------------------------------------------------- a closed order changes

  /** After the restart the closed order has the recorded amount. */
  lemma RestartsAtOldAmount(costs: CostModel, start: Balance, s: Session)
    requires SoundCosts(costs) && Inv(costs, start, s) && Crashed(s, 5)
    ensures var t := Reconcile(costs, s, CLOSED_ROW).0;
            && Resume(costs, t.journal).Some?
            && var r := Resume(costs, t.journal).value.orders;
               1 in r && r[1] == Moved(5, 500, Cancelled).(createdAt := r[1].createdAt)
  {
    var t := Reconcile(costs, s, CLOSED_ROW).0;
    ClosesMoved(costs, start, s);
    LosesMoved(costs, start, s);
    assert Inv(costs, start, Trail(s, s, t)) by { RecordedAfter(costs, start, s, CLOSED_ROW); }
    CrashInv(costs, start, Trail(s, s, t));
    ClosedTrailed(s, t);
    RestoredOne(Resume(costs, t.journal).value, Trail(s, s, t));
  }

  lemma ClosedTrailed(s: Session, t: Session)
    requires Crashed(s, 5) && t.orders == map[1 := Moved(5, 505, Cancelled)]
    ensures Trail(s, s, t).orders == map[1 := Moved(5, 500, Cancelled)]
  {
  }

  lemma RestoredOne(r: Session, x: Session)
    requires Continues(r, x) && x.orders == map[1 := Moved(5, 500, Cancelled)]
    ensures 1 in r.orders && r.orders[1] == Moved(5, 500, Cancelled).(createdAt := r.orders[1].createdAt)
  {
    assert 1 in Visible(x.orders) && RestoredAs(r.orders[1], x.orders[1]);
  }

  lemma ClosingListsAgree()
    ensures Agree(ONE_ROW, ONE_ROW) && Agree(ONE_ROW, CLOSED_ROW) && Agree(CLOSED_ROW, CLOSED_ROW)
    ensures UnfilledIsFree(ONE_ROW) && UnfilledIsFree(CLOSED_ROW)
  {
  }

  lemma HonestClosing(ops: seq<Operation>)
    requires |ops| == 5 && ops[0].Do? && ops[1].Do? && ops[2].FallIn? && ops[2].rows == ONE_ROW
    requires ops[3] == DoReconcile(CLOSED_ROW) && ops[4] == Fall
    ensures Honest(ops)
  {
    ClosingListsAgree();
    assert ListOf(ops[0]).None? && ListOf(ops[1]).None? && ListOf(ops[4]).None?;
    assert ListOf(ops[2]) == Some(ONE_ROW) && ListOf(ops[3]) == Some(CLOSED_ROW);
  }

  /** A CLOSED ORDER CHANGES. The same day, with that list worked off and then a crash between two operations: the broker
      restates nothing, the reconcile raises nothing and closes the order at 505, and after the restart the closed order
      has 500. */
  lemma ClosedOrderChanges(costs: CostModel, first: Session) returns (ops: seq<Operation>)
    requires SoundCosts(costs) && FirstSession(first, [])
    ensures Working(costs, first, ops) && Honest(ops) && |ops| == 5
    ensures ops[3] == DoReconcile(CLOSED_ROW) && Reconcile(costs, At(costs, first, ops, 3), CLOSED_ROW).1.None?
    ensures ops[4] == Fall
    ensures var before, after := At(costs, first, ops, 4).orders, At(costs, first, ops, 5).orders;
            && 1 in before && before[1].Terminal() && before[1].filledQty == 5 && before[1].filledAmount == 505
            && 1 in after && after[1].Terminal() && after[1].filledQty == 5 && after[1].filledAmount == 500
  {
    var cut, s := CutDay(costs, first);
    ClosesMoved(costs, first.ledger, s);
    RestartsAtOldAmount(costs, first.ledger, s);
    OperateOn(costs, first, cut, DoReconcile(CLOSED_ROW));
    var more := cut + [DoReconcile(CLOSED_ROW)];
    OperateOn(costs, first, more, Fall);
    ops := more + [Fall];
    assert ops[..3] == cut && ops[..4] == more && ops[..5] == ops;
    HonestClosing(ops);
  }

  // ---------------------------------------------------------------- an amount that was not on record

  /** The order after the first list: row "2" for 505 in memory, 500 on record. */
  predicate Lagging(s: Session) {
    s.orders == map[1 := Moved(5, 505, PartiallyFilled)] && s.seqNo == 1 && Recorded(s).orders[1].filledAmount == 500
  }

  lemma StoresUnrecorded(costs: CostModel, start: Balance, s: Session)
    requires SoundCosts(costs) && Inv(costs, start, s) && Crashed(s, 5)
    ensures var t := Reconcile(costs, s, OTHER_ROW).0;
            Lagging(t) && Legible(t) && Kept(costs, start, t) && OneClock(t)
  {
    var t := Reconcile(costs, s, OTHER_ROW).0;
    TwoRowsOf(OTHER_ROW);
    StoresAmount(costs, s);
    KeptBy(costs, start, s, s);
    assert Legible(t) && Recorded(t) == Trail(s, s, t) by { RecordedAfter(costs, start, s, OTHER_ROW); }
    StoredTrail(s, t);
    assert Kept(costs, start, t) by { ReconcileKept(costs, start, s, OTHER_ROW); }
    ReconcileClock(costs, start, s, OTHER_ROW);
  }

  lemma StoredTrail(s: Session, t: Session)
    requires Crashed(s, 5) && t.orders == map[1 := Moved(5, 505, PartiallyFilled)]
    ensures Trail(s, s, t).orders == map[1 := Moved(5, 500, PartiallyFilled)]
  {
  }

  lemma MovedStays(s: Session, rows: seq<Row>)
    requires s.orders == map[1 := Moved(5, 505, PartiallyFilled)] && s.seqNo == 1
    ensures Adopted(s.orders, rows, 1) == s.orders
  {
  }

  /** The row agrees with memory and closes the order. */
  lemma ClosesLagging(s: Session)
    requires Lagging(s)
    ensures AmountsStand(s.orders, CLOSED_ROW) && Repeatable(s.orders, CLOSED_ROW) && FillsFit(s, CLOSED_ROW)
    ensures CatchesUp(s, CLOSED_ROW) && !Lossless(s, CLOSED_ROW)
  {
    MovedStays(s, CLOSED_ROW);
    ClosedRowFacts();
    var mid := Adopted(s.orders, CLOSED_ROW, 1);
    assert RowFor(mid[1], CLOSED_ROW) == Some(CLOSED_ROW[0]);
    assert 1 in mid && ClosedOff(mid, CLOSED_ROW, 1, 500);
  }

  lemma EmptyListLeavesBehind(s: Session)
    requires Lagging(s)
    ensures FillsFit(s, []) && !CatchesUp(s, [])
  {
    MovedStays(s, []);
    assert 1 in Adopted(s.orders, [], 1) && RowFor(s.orders[1], []).None?;
  }

  /** AN AMOUNT THAT WAS NOT ON RECORD. The day of the unreadable journal up to its first list, after which memory has 505
      and the records 500. The next list agrees with memory in every amount and nobody is in doubt; if it closes the order,
      a restart after its last record has 500 for good, and if it does not show the order, so has a restart before its
      first. */
  lemma UnrecordedAmountDay(costs: CostModel, first: Session) returns (ops: seq<Operation>, s: Session)
    requires SoundCosts(costs) && FirstSession(first, [])
    ensures Working(costs, first, ops) && OperateAll(costs, first, ops) == s && |ops| == 4 && ops[3] == DoReconcile(OTHER_ROW)
    ensures Ready(costs, first.ledger, s, CLOSED_ROW) && Legible(s) && OneClock(s)
    ensures Repeatable(s.orders, CLOSED_ROW) && AmountsStand(s.orders, CLOSED_ROW)
    ensures !SameAfterCut(costs, s, CLOSED_ROW, |Reconcile(costs, s, CLOSED_ROW).0.journal|)
    ensures |s.journal| <= |Reconcile(costs, s, []).0.journal| && !SameAfterCut(costs, s, [], |s.journal|)
  {
    var cut, c := CutDay(costs, first);
    TwoRowsOf(OTHER_ROW);
    OperateOn(costs, first, cut, DoReconcile(OTHER_ROW));
    ops, s := cut + [DoReconcile(OTHER_ROW)], Reconcile(costs, c, OTHER_ROW).0;
    StoresUnrecorded(costs, first.ledger, c);
    RerunsLoseIt(costs, first.ledger, s);
  }

  lemma RerunsLoseIt(costs: CostModel, start: Balance, s: Session)
    requires SoundCosts(costs) && Kept(costs, start, s) && Legible(s) && OneClock(s) && Lagging(s)
    ensures Ready(costs, start, s, CLOSED_ROW) && Repeatable(s.orders, CLOSED_ROW) && AmountsStand(s.orders, CLOSED_ROW)
    ensures !SameAfterCut(costs, s, CLOSED_ROW, |Reconcile(costs, s, CLOSED_ROW).0.journal|)
    ensures |s.journal| <= |Reconcile(costs, s, []).0.journal| && !SameAfterCut(costs, s, [], |s.journal|)
  {
    ClosedRowFacts();
    ClosesLagging(s);
    AmountIsLost(costs, start, s, CLOSED_ROW);
    NotShownAgain(costs, start, s);
  }

  lemma NotShownAgain(costs: CostModel, start: Balance, s: Session)
    requires SoundCosts(costs) && Kept(costs, start, s) && Legible(s) && OneClock(s) && Lagging(s)
    ensures |s.journal| <= |Reconcile(costs, s, []).0.journal| && !SameAfterCut(costs, s, [], |s.journal|)
  {
    EmptyListLeavesBehind(s);
    AmountLags(costs, start, s, []);
  }
}
