/** The life of an order over working days: what no list and no restart can undo, and exactly when a restart leaves closed
    orders as they were. */
module LifeCycle {
  import opened Contracts
  import opened Accounting
  import opened Recovery
  import opened Sessions
  import opened Replay
  import opened Invariants
  import opened Reconciling
  import opened Adoption
  import opened ExactlyOnce
  import opened Restating
  import opened RestartedReconcile
  import opened Guarantees
  import opened Operations
  import opened CatchingUp
  import opened WorkingDays

  // ---------------------------------------------------------------- on every working day

  /** A later view of an order: it moves along the life cycle, fills only grow, never beyond the order, and a closed
      order stays as it was but for its amount (and the creation time a restart reads back). */
  predicate Onward(o: Order, p: Order) {
    && p.id == o.id && p.intent == o.intent && !p.reject.ByGate? && Along(o.status, p.status)
    && o.filledQty <= p.filledQty <= p.intent.qty
    && (Stage(o.status) == 4 ==> p == o.(createdAt := p.createdAt, filledAmount := p.filledAmount))
  }

  ghost predicate AllOnward(before: Orders, after: Orders) {
    forall id :: id in Visible(before) ==> id in after && Onward(before[id], after[id])
  }

  lemma OnwardReflexive(s: Session)
    requires Shape(s)
    ensures AllOnward(s.orders, s.orders)
  {
    forall id | id in Visible(s.orders)
      ensures Onward(s.orders[id], s.orders[id])
    {
      assert OrderOk(id, s.orders[id]);
    }
  }

  lemma OnwardTransitive(a: Orders, b: Orders, c: Orders)
    requires AllOnward(a, b) && AllOnward(b, c)
    ensures AllOnward(a, c)
  {
    forall id | id in Visible(a)
      ensures id in c && Onward(a[id], c[id])
    {
      assert id in Visible(b);
    }
  }

  lemma LaterIsOnward(a: Orders, b: Orders)
    requires AllLater(a, b)
    ensures AllOnward(a, b)
  {
  }

  /** What is later than the records is onward from memory. */
  lemma RecordOnward(t: Session, s: Session, after: Orders)
    requires Shadows(t, s) && AllLater(t.orders, after)
    ensures AllOnward(s.orders, after)
  {
    forall id | id in Visible(s.orders)
      ensures id in after && Onward(s.orders[id], after[id])
    {
      assert Aside(t.orders[id], s.orders[id]) && id in Visible(t.orders);
    }
  }

  lemma TakenOnward(id: nat, o: Order, mid: Order, rows: seq<Row>)
    requires OrderOk(id, o) && OrderOk(id, mid) && !o.reject.ByGate? && !o.status.PendingSubmit?
    requires mid == o.(ref := mid.ref) && (o.Terminal() ==> mid == o) && Readable(mid, rows)
    ensures Onward(o, mid) && Onward(o, Taken(mid, rows))
  {
    if RowFor(mid, rows).Some? {
      var row := RowFor(mid, rows).value;
      DerivedMoveIsLegal(mid.status, mid.filledQty, row, HasCancelChild(rows, row.no));
    }
  }

  lemma ReconcileOnward(costs: CostModel, start: Balance, s: Session, rows: seq<Row>)
    requires Ready(costs, start, s, rows)
    ensures AllOnward(s.orders, Reconcile(costs, s, rows).0.orders)
  {
    var mid, after := Adopted(s.orders, rows, s.seqNo), Reconcile(costs, s, rows).0.orders;
    assert Shape(Midway(costs, s, rows)) by { MidwayIsReady(costs, start, s, rows); }
    ReconcileTakes(costs, start, s, rows);
    forall id | id in Visible(s.orders)
      ensures id in after && Onward(s.orders[id], after[id])
    {
      assert OrderOk(id, s.orders[id]) && OrderOk(id, mid[id]);
      if Reached(mid, rows, id) {
        TakenOnward(id, s.orders[id], mid[id], rows);
      }
    }
  }

  lemma CrashOnward(costs: CostModel, start: Balance, s: Session)
    requires Kept(costs, start, s) && Resume(costs, s.journal).Some?
    ensures AllOnward(s.orders, Resume(costs, s.journal).value.orders)
  {
    LegibleRestarts(costs, start, s);
    RecordedShadows(s);
    CrashAdvances(Resume(costs, s.journal).value, Recorded(s));
    RecordOnward(Recorded(s), s, Resume(costs, s.journal).value.orders);
  }

  lemma CutOnward(costs: CostModel, start: Balance, s: Session, rows: seq<Row>, n: nat)
    requires SoundCosts(costs) && Kept(costs, start, s) && NoPending(s.orders) && GoodSnapshot(rows) && CutRestarts(costs, s, rows, n)
    ensures AllOnward(s.orders, CutResumed(costs, s, rows, n).orders)
  {
    var c, a, run := ReadableCut(costs, start, s, rows, n);
    var t, r := Recorded(s), CutResumed(costs, s, rows, n);
    var x := Trail(t, s, a);
    RunAdvances(costs, start, t, run);
    CrashInv(costs, start, x);
    CrashAdvances(r, x);
    LaterTransitive(t.orders, x.orders, r.orders);
    RecordOnward(t, s, r.orders);
  }

  lemma OperationOnward(costs: CostModel, start: Balance, s: Session, op: Operation)
    requires SoundCosts(costs) && Kept(costs, start, s) && MayOperate(costs, s, op)
    ensures AllOnward(s.orders, Operate(costs, s, op).orders)
  {
    match op
    case Do(a) =>
      ActionAdvances(costs, s, a);
      LaterIsOnward(s.orders, Next(costs, s, a).orders);
    case DoReconcile(rows) => ReconcileOnward(costs, start, s, rows);
    case Fall => CrashOnward(costs, start, s);
    case FallIn(rows, n) => CutOnward(costs, start, s, rows, n);
  }

  /** LIFE CYCLE. Between any two moments of every working day, whatever lists the broker sends and wherever the process
      crashes: an order only gets further, its cumulative fill never falls and never exceeds its quantity,
      and a closed order changes in nothing but its amount. */
  lemma {:induction false} EveryListAdvances(costs: CostModel, first: Session, ops: seq<Operation>, i: nat, j: nat)
    requires Working(costs, first, ops) && i <= j <= |ops|
    ensures AllOnward(At(costs, first, ops, i).orders, At(costs, first, ops, j).orders)
  {
    if i == j {
      assert Shape(At(costs, first, ops, i)) by { MomentKept(costs, first, ops, i); }
      OnwardReflexive(At(costs, first, ops, i));
    } else {
      EveryListAdvances(costs, first, ops, i, j - 1);
      NextMoment(costs, first, ops, j - 1);
      OperationOnward(costs, first.ledger, At(costs, first, ops, j - 1), ops[j - 1]);
      OnwardTransitive(At(costs, first, ops, i).orders, At(costs, first, ops, j - 1).orders, At(costs, first, ops, j).orders);
    }
  }

  /** At every moment of every working day an order that was sent is within its quantity, and its status fits its fill. */
  lemma FillsFitStatus(costs: CostModel, first: Session, ops: seq<Operation>, i: nat, id: nat)
    requires Working(costs, first, ops) && i <= |ops| && id in Visible(At(costs, first, ops, i).orders)
    ensures var o := At(costs, first, ops, i).orders[id];
            && 0 <= o.filledQty <= o.intent.qty && (o.status.PartiallyFilled? ==> o.filledQty > 0)
            && (o.status.PendingSubmit? ==> o.filledQty == 0) && (o.filledQty > 0 ==> o.Numbered())
  {
    MomentKept(costs, first, ops, i);
    assert OrderOk(id, At(costs, first, ops, i).orders[id]);
  }

  // ---------------------------------------------------------------- client ids

  lemma {:induction false} PlainSeq(before: seq<Record>, after: seq<Record>)
    requires OpensNone(before, after)
    ensures NextSeq(after) == NextSeq(before)
  {
    if |before| < |after| {
      PlainSeq(before, after[..|after| - 1]);
    } else {
      assert before == after;
    }
  }

  lemma SeqAppends(journal: seq<Record>, r: Record)
    requires OpensOrder(r)
    ensures NextSeq(journal + [r]) == Max(NextSeq(journal), r.id)
  {
    assert (journal + [r])[..|journal + [r]| - 1] == journal;
  }

  lemma ActionOpensNone(costs: CostModel, s: Session, a: Action)
    requires !a.Place? && !a.GateReject?
    ensures OpensNone(s.journal, Next(costs, s, a).journal) && s.seqNo <= Next(costs, s, a).seqNo
  {
  }

  lemma ActionSeq(costs: CostModel, s: Session, a: Action)
    requires NextSeq(s.journal) <= s.seqNo
    ensures NextSeq(Next(costs, s, a).journal) <= Next(costs, s, a).seqNo
  {
    match a
    case GateReject(_, _, code) => SeqAppends(s.journal, RiskReject(s.seqNo + 1, code));
    case Place(intent, _, ts, _) => SeqAppends(s.journal, IntentRecord(ts, s.seqNo + 1, intent));
    case _ =>
      ActionOpensNone(costs, s, a);
      PlainSeq(s.journal, Next(costs, s, a).journal);
  }

  lemma {:induction false} SeqBounds(costs: CostModel, first: Session, ops: seq<Operation>, i: nat)
    requires Working(costs, first, ops) && i <= |ops|
    ensures NextSeq(At(costs, first, ops, i).journal) <= At(costs, first, ops, i).seqNo
  {
    if i == 0 {
      FirstMoment(costs, first, ops);
    } else {
      SeqBounds(costs, first, ops, i - 1);
      NextMoment(costs, first, ops, i - 1);
      var s := At(costs, first, ops, i - 1);
      match ops[i - 1]
      case Do(a) => ActionSeq(costs, s, a);
      case DoReconcile(rows) =>
        ReconcilePlain(costs, s, rows);
        PlainSeq(s.journal, Reconcile(costs, s, rows).0.journal);
        ReconcileLawful(costs, first.ledger, s, rows);
      case _ =>
    }
  }

  /** At every moment of every working day, a client id that reached the journal is never given out again, also by a
      restarted session. */
  lemma IdsNeverReused(costs: CostModel, first: Session, ops: seq<Operation>, i: nat, k: nat)
    requires Working(costs, first, ops) && i <= |ops|
    requires k < |At(costs, first, ops, i).journal| && OpensOrder(At(costs, first, ops, i).journal[k])
    ensures var s := At(costs, first, ops, i);
            && s.journal[k].id <= s.seqNo
            && (Resume(costs, s.journal).Some? ==> s.journal[k].id <= Resume(costs, s.journal).value.seqNo)
  {
    SeqBounds(costs, first, ops, i);
    RecordedIdsBounded(At(costs, first, ops, i).journal, k);
  }

  // ---------------------------------------------------------------- closed orders and restarts

  /** Every closed order is there afterwards, with another creation time at most. */
  ghost predicate ClosedAgree(before: Orders, after: Orders) {
    forall id :: id in Visible(before) && before[id].Terminal() ==>
      id in after && after[id] == before[id].(createdAt := after[id].createdAt)
  }

  /** A restart now leaves every closed order as it is. */
  ghost predicate ClosedKept(costs: CostModel, s: Session) {
    Resume(costs, s.journal).Some? ==> ClosedAgree(s.orders, Resume(costs, s.journal).value.orders)
  }

  /** Wherever this reconcile is cut, the orders a restart finds closed are as the reconcile closes them. */
  ghost predicate CutsKeepClosed(costs: CostModel, s: Session, rows: seq<Row>) {
    forall n :: CutRestarts(costs, s, rows, n) ==> ClosedAgree(CutResumed(costs, s, rows, n).orders, Reconcile(costs, s, rows).0.orders)
  }

  /** The list closes no order, without bringing it a fill, at another amount than the recorded one, as long as the fills
      it brings go on top of recorded amounts. */
  predicate ClosesOnRecord(s: Session, rows: seq<Row>) {
    var mid := Adopted(s.orders, rows, s.seqNo);
    Legible(s) ==>
      forall id :: id in mid && FillsFitTo(s, rows, id) ==> !ClosedOff(mid, rows, id, Recorded(s).orders[id].filledAmount)
  }

  /** The amounts of closed orders are on record. */
  ghost predicate ClosedOnRecord(s: Session) {
    Legible(s) ==> forall id :: id in Visible(s.orders) && s.orders[id].Terminal() ==> Recorded(s).orders[id] == s.orders[id]
  }

  lemma OnRecordIsKept(costs: CostModel, start: Balance, s: Session)
    requires Kept(costs, start, s)
    ensures ClosedKept(costs, s) <==> ClosedOnRecord(s)
  {
    LegibleRestarts(costs, start, s);
    if Legible(s) {
      RecordedShadows(s);
      var t, r := Recorded(s), Resume(costs, s.journal).value;
      forall id | id in Visible(s.orders) && s.orders[id].Terminal()
        ensures id in r.orders
        ensures r.orders[id] == s.orders[id].(createdAt := r.orders[id].createdAt) <==> t.orders[id] == s.orders[id]
      {
        assert id in Visible(t.orders);
        RestoredClosed(r.orders[id], t.orders[id], s.orders[id]);
      }
    }
  }

  lemma RestoredClosed(r: Order, t: Order, s: Order)
    requires Aside(t, s) && RestoredAs(r, t) && s.Terminal()
    ensures r == s.(createdAt := r.createdAt) <==> t == s
  {
  }

  // ---------------------------------------------------------------- what keeps them on record

  lemma ActionCloses(id: nat, t: Session, s: Session, costs: CostModel, a: Action)
    requires Shape(t) && Shape(s) && Shadows(t, s) && Enabled(s, a) && !a.Book? && !a.Move? && !a.Adopt?
    requires id in s.orders && (s.orders[id].Terminal() ==> t.orders[id] == s.orders[id])
    requires id in Next(costs, s, a).orders && Next(costs, s, a).orders[id].Terminal()
    ensures id in Next(costs, t, a).orders && Next(costs, t, a).orders[id] == Next(costs, s, a).orders[id]
  {
    assert OrderOk(id, s.orders[id]) && OrderOk(id, t.orders[id]) && Aside(t.orders[id], s.orders[id]);
  }

  lemma ActionOnRecord(costs: CostModel, start: Balance, s: Session, a: Action)
    requires SoundCosts(costs) && Kept(costs, start, s) && ClosedOnRecord(s) && MayOperate(costs, s, Do(a))
    ensures ClosedOnRecord(Next(costs, s, a))
  {
    ActionKept(costs, start, s, a);
    if Legible(s) {
      RecordedShadows(s);
      var t, after := Recorded(s), Next(costs, s, a);
      forall id | id in Visible(after.orders) && after.orders[id].Terminal()
        ensures Next(costs, t, a).orders[id] == after.orders[id]
      {
        if id in s.orders {
          ActionCloses(id, t, s, costs, a);
        }
      }
    }
  }

  /** An order that is closed at a moment of a reconcile, as the records describe it. */
  lemma ClosedTrail(t: Session, s: Session, a: Session, mid: Orders, rows: seq<Row>, id: nat)
    requires id in mid && id in s.orders && id in t.orders && id in a.orders && a.orders[id].Terminal()
    requires mid[id] == s.orders[id].(ref := mid[id].ref) && (s.orders[id].Terminal() ==> mid[id] == s.orders[id] == t.orders[id])
    requires || a.orders[id] == mid[id] || HalfTaken(mid[id], a.orders[id], rows)
             || (a.orders[id] == Taken(mid[id], rows) && Reached(mid, rows, id) && !ClosedOff(mid, rows, id, t.orders[id].filledAmount))
    ensures Trail(t, s, a).orders[id] == a.orders[id]
    ensures a.orders[id] == mid[id] || (Reached(mid, rows, id) && a.orders[id] == Taken(mid[id], rows))
  {
  }

  lemma AdoptedFacts(s: Session, rows: seq<Row>, id: nat)
    requires id in s.orders
    ensures var mid := Adopted(s.orders, rows, s.seqNo);
            id in mid && mid[id] == s.orders[id].(ref := mid[id].ref) && (s.orders[id].Terminal() ==> mid[id] == s.orders[id])
  {
  }

  lemma NotClosedOff(s: Session, rows: seq<Row>, n: nat, id: nat)
    requires Legible(s) && ClosesOnRecord(s, rows) && FillsFitTo(s, rows, n) && id in s.orders && id <= n
    ensures !ClosedOff(Adopted(s.orders, rows, s.seqNo), rows, id, Recorded(s).orders[id].filledAmount)
  {
    assert FillsFitTo(s, rows, id);
    assert id in Adopted(s.orders, rows, s.seqNo);
  }

  /** An order that is closed after a reconcile whose fills fit. */
  lemma AfterOnRecord(costs: CostModel, start: Balance, s: Session, rows: seq<Row>, id: nat)
    requires Ready(costs, start, s, rows) && Legible(s) && FillsFit(s, rows) && ClosedOnRecord(s) && ClosesOnRecord(s, rows)
    requires id in Visible(Reconcile(costs, s, rows).0.orders) && Reconcile(costs, s, rows).0.orders[id].Terminal()
    ensures Trail(Recorded(s), s, Reconcile(costs, s, rows).0).orders[id] == Reconcile(costs, s, rows).0.orders[id]
  {
    ReconcileTakes(costs, start, s, rows);
    TakenRejects(s.orders, rows, s.seqNo, id);
    AdoptedFacts(s, rows, id);
    NotClosedOff(s, rows, s.seqNo, id);
    ClosedTrail(Recorded(s), s, Reconcile(costs, s, rows).0, Adopted(s.orders, rows, s.seqNo), rows, id);
  }

  lemma ReconcileOnRecord(costs: CostModel, start: Balance, s: Session, rows: seq<Row>)
    requires Ready(costs, start, s, rows) && Kept(costs, start, s) && ClosedOnRecord(s) && ClosesOnRecord(s, rows)
    ensures ClosedOnRecord(Reconcile(costs, s, rows).0)
  {
    var after := Reconcile(costs, s, rows).0;
    if Legible(after) {
      assert Legible(s) && FillsFit(s, rows) by { ReconcileKept(costs, start, s, rows); }
      assert Recorded(after) == Trail(Recorded(s), s, after) by { RecordedAfter(costs, start, s, rows); }
      forall id | id in Visible(after.orders) && after.orders[id].Terminal()
        ensures Trail(Recorded(s), s, after).orders[id] == after.orders[id]
      {
        AfterOnRecord(costs, start, s, rows, id);
      }
    }
  }

  lemma MirroredIsOnRecord(costs: CostModel, start: Balance, r: Session)
    requires Inv(costs, start, r)
    ensures ClosedOnRecord(r)
  {
    KeptBy(costs, start, r, r);
  }

  lemma OperationOnRecord(costs: CostModel, start: Balance, s: Session, op: Operation)
    requires SoundCosts(costs) && Kept(costs, start, s) && MayOperate(costs, s, op) && ClosedOnRecord(s)
    requires ListOf(op).Some? ==> ClosesOnRecord(s, ListOf(op).value)
    ensures ClosedOnRecord(Operate(costs, s, op))
  {
    match op
    case Do(a) => ActionOnRecord(costs, start, s, a);
    case DoReconcile(rows) => ReconcileOnRecord(costs, start, s, rows);
    case Fall =>
      LegibleRestarts(costs, start, s);
      MirroredIsOnRecord(costs, start, Operate(costs, s, op));
    case FallIn(rows, n) =>
      CutKept(costs, start, s, rows, n);
      MirroredIsOnRecord(costs, start, CutResumed(costs, s, rows, n));
  }

  // ---------------------------------------------------------------- cuts

  /** The orders of a cut: decided by the first loop so far, or taken by the second. */
  lemma CutOrder(costs: CostModel, start: Balance, s: Session, rows: seq<Row>, c: Cut, a: Session, id: nat)
    requires Ready(costs, start, s, rows) && CutState(costs, s, rows, c, a) && id in s.orders && id in a.orders
    requires a.orders[id].Terminal()
    ensures var mid := Adopted(s.orders, rows, s.seqNo);
            || a.orders[id] == mid[id] || HalfTaken(mid[id], a.orders[id], rows)
            || (!c.InAdoption? && id <= c.turn && a.orders[id] == Taken(mid[id], rows) && Reached(mid, rows, id))
  {
    if c.InAdoption? {
      LoopDecidesAtOnce(costs, s, rows, c.turn);
    } else {
      var k := CutTurns(costs, start, s, rows, c, a);
      ReconcileTakes(costs, start, s, rows);
    }
  }

  lemma CutOrderKept(costs: CostModel, start: Balance, s: Session, rows: seq<Row>, c: Cut, a: Session, id: nat)
    requires Ready(costs, start, s, rows) && Legible(s) && ClosedOnRecord(s) && ClosesOnRecord(s, rows)
    requires CutState(costs, s, rows, c, a) && (!c.InAdoption? ==> FillsFitTo(s, rows, c.turn))
    requires id in s.orders && id in a.orders && a.orders[id].Terminal() && !a.orders[id].reject.ByGate?
    ensures id in Reconcile(costs, s, rows).0.orders
    ensures Trail(Recorded(s), s, a).orders[id] == Reconcile(costs, s, rows).0.orders[id]
  {
    var t, mid := Recorded(s), Adopted(s.orders, rows, s.seqNo);
    CutOrder(costs, start, s, rows, c, a, id);
    AdoptedFacts(s, rows, id);
    if !c.InAdoption? && id <= c.turn {
      NotClosedOff(s, rows, c.turn, id);
    }
    ReconcileTakes(costs, start, s, rows);
    ClosedTrail(t, s, a, mid, rows, id);
  }

  /** What a restart gives back of closed orders, if what the records describe of them is what they become. */
  lemma AgreesVia(r: Session, x: Session, after: Orders)
    requires Continues(r, x)
    requires forall id :: id in Visible(x.orders) && x.orders[id].Terminal() ==> id in after && after[id] == x.orders[id]
    ensures ClosedAgree(r.orders, after)
  {
    forall id | id in Visible(r.orders) && r.orders[id].Terminal()
      ensures id in after && after[id] == r.orders[id].(createdAt := after[id].createdAt)
    {
      assert id in Visible(x.orders) && RestoredAs(r.orders[id], x.orders[id]);
    }
  }

  lemma TrailCloses(t: Session, s: Session, a: Session, id: nat)
    requires id in Visible(Trail(t, s, a).orders) && Trail(t, s, a).orders[id].Terminal()
    ensures id in a.orders && a.orders[id].Terminal() && !a.orders[id].reject.ByGate?
  {
  }

  lemma CutTrailKept(costs: CostModel, start: Balance, s: Session, rows: seq<Row>, c: Cut, a: Session)
    requires Ready(costs, start, s, rows) && Legible(s) && ClosedOnRecord(s) && ClosesOnRecord(s, rows)
    requires CutState(costs, s, rows, c, a) && (!c.InAdoption? ==> FillsFitTo(s, rows, c.turn))
    ensures var x, after := Trail(Recorded(s), s, a).orders, Reconcile(costs, s, rows).0.orders;
            forall id :: id in Visible(x) && x[id].Terminal() ==> id in after && after[id] == x[id]
  {
    var x, after := Trail(Recorded(s), s, a).orders, Reconcile(costs, s, rows).0.orders;
    assert a.orders.Keys == s.orders.Keys by { CutClock(costs, start, s, rows, c, a); }
    forall id | id in Visible(x) && x[id].Terminal()
      ensures id in after && after[id] == x[id]
    {
      TrailCloses(Recorded(s), s, a, id);
      CutOrderKept(costs, start, s, rows, c, a, id);
    }
  }

  lemma CutKeepsClosed(costs: CostModel, start: Balance, s: Session, rows: seq<Row>, n: nat)
    requires Ready(costs, start, s, rows) && Kept(costs, start, s) && ClosedOnRecord(s) && ClosesOnRecord(s, rows)
    requires CutRestarts(costs, s, rows, n)
    ensures ClosedAgree(CutResumed(costs, s, rows, n).orders, Reconcile(costs, s, rows).0.orders)
  {
    var c, a, run := ReadableCut(costs, start, s, rows, n);
    var x := Trail(Recorded(s), s, a);
    CrashInv(costs, start, x);
    CutTrailKept(costs, start, s, rows, c, a);
    AgreesVia(CutResumed(costs, s, rows, n), x, Reconcile(costs, s, rows).0.orders);
  }

  lemma ListKeepsClosed(costs: CostModel, start: Balance, s: Session, rows: seq<Row>)
    requires Ready(costs, start, s, rows) && Kept(costs, start, s) && ClosedOnRecord(s) && ClosesOnRecord(s, rows)
    ensures CutsKeepClosed(costs, s, rows)
  {
    forall n | CutRestarts(costs, s, rows, n)
      ensures ClosedAgree(CutResumed(costs, s, rows, n).orders, Reconcile(costs, s, rows).0.orders)
    {
      CutKeepsClosed(costs, start, s, rows, n);
    }
  }

  /** A cut whose records give a closed order another amount than the reconcile does. */
  lemma CutDisagrees(costs: CostModel, s: Session, rows: seq<Row>, x: Session, r: Session, id: nat)
    requires s.journal <= x.journal <= Reconcile(costs, s, rows).0.journal
    requires Resume(costs, x.journal) == Some(r) && Continues(r, x)
    requires id in Visible(x.orders) && x.orders[id].Terminal() && id in Reconcile(costs, s, rows).0.orders
    requires x.orders[id].filledAmount != Reconcile(costs, s, rows).0.orders[id].filledAmount
    ensures !CutsKeepClosed(costs, s, rows)
  {
    var n, after := |x.journal|, Reconcile(costs, s, rows).0;
    assert after.journal[..n] == x.journal;
    assert CutRestarts(costs, s, rows, n) && CutResumed(costs, s, rows, n) == r;
    assert RestoredAs(r.orders[id], x.orders[id]) && id in Visible(r.orders);
    assert !ClosedAgree(r.orders, after.orders);
  }

  /** Cut right after the turn that closes such an order, the restart finds it closed at the recorded amount. */
  lemma ClosedOffCut(costs: CostModel, start: Balance, s: Session, rows: seq<Row>, id: nat)
    requires Ready(costs, start, s, rows) && Kept(costs, start, s) && Legible(s) && id in s.orders && FillsFitTo(s, rows, id)
    requires ClosedOff(Adopted(s.orders, rows, s.seqNo), rows, id, Recorded(s).orders[id].filledAmount)
    ensures !CutsKeepClosed(costs, s, rows)
  {
    var x := TurnRecorded(costs, start, s, rows, id);
    CrashInv(costs, start, x);
    ReconcileTakes(costs, start, s, rows);
    CutDisagrees(costs, s, rows, x, Resume(costs, x.journal).value, id);
  }

  /** What the records describe after the turn of an order that the list closes off. */
  lemma TurnRecorded(costs: CostModel, start: Balance, s: Session, rows: seq<Row>, id: nat) returns (x: Session)
    requires Ready(costs, start, s, rows) && Kept(costs, start, s) && Legible(s) && id in s.orders && FillsFitTo(s, rows, id)
    requires ClosedOff(Adopted(s.orders, rows, s.seqNo), rows, id, Recorded(s).orders[id].filledAmount)
    ensures Inv(costs, start, x) && s.journal <= x.journal <= Reconcile(costs, s, rows).0.journal
    ensures id in Visible(x.orders) && x.orders[id].Terminal() && x.orders[id].filledAmount == Recorded(s).orders[id].filledAmount
  {
    var t := Recorded(s);
    x := Trail(t, s, SyncTo(costs, Midway(costs, s, rows), rows, id).0);
    assert Inv(costs, start, x) by { FittingTurns(costs, start, s, rows, id); }
    TurnJournal(costs, s, rows, id);
    TurnCloses(costs, start, t, s, rows, id);
  }

  /** While fills fit, the records describe a session at every turn. */
  lemma FittingTurns(costs: CostModel, start: Balance, s: Session, rows: seq<Row>, m: nat)
    requires Ready(costs, start, s, rows) && Kept(costs, start, s) && Legible(s) && FillsFitTo(s, rows, m)
    ensures Inv(costs, start, Trail(Recorded(s), s, SyncTo(costs, Midway(costs, s, rows), rows, m).0))
  {
    var t := Recorded(s);
    var midT, mid := Midway(costs, t, rows), Midway(costs, s, rows);
    RecordedReady(costs, start, s, rows);
    AdoptToShadowed(costs, t, s, rows, s.seqNo);
    assert AllClean(midT, mid, rows, m) by { FillsFitIsClean(costs, start, s, rows, m); }
    assert Inv(costs, start, midT) by { AdoptToInv(costs, start, t, rows, s.seqNo); }
    assert Steady(start, mid) by { MidwayIsReady(costs, start, s, rows); }
    var run := SyncToShadowed(costs, start, midT, mid, rows, m);
    RunInv(costs, start, midT, run);
    MidwayTrail(costs, t, s, rows, SyncTo(costs, mid, rows, m).0);
  }

  lemma TurnCloses(costs: CostModel, start: Balance, t: Session, s: Session, rows: seq<Row>, id: nat)
    requires Ready(costs, start, s, rows) && id in s.orders && id in t.orders
    requires ClosedOff(Adopted(s.orders, rows, s.seqNo), rows, id, t.orders[id].filledAmount)
    ensures var x := Trail(t, s, SyncTo(costs, Midway(costs, s, rows), rows, id).0);
            id in Visible(x.orders) && x.orders[id].Terminal() && x.orders[id].filledAmount == t.orders[id].filledAmount
  {
    var mid := Midway(costs, s, rows);
    MidwayIsReady(costs, start, s, rows);
    SyncDecidesAtOnce(costs, start, mid, rows, id);
    AdoptedFacts(s, rows, id);
    assert OrderOk(id, mid.orders[id]);
  }

  lemma TurnJournal(costs: CostModel, s: Session, rows: seq<Row>, id: nat)
    requires id <= s.seqNo
    ensures s.journal <= SyncTo(costs, Midway(costs, s, rows), rows, id).0.journal <= Reconcile(costs, s, rows).0.journal
  {
    AdoptToJournal(costs, s, rows, s.seqNo);
    SyncToJournal(costs, Midway(costs, s, rows), rows, id);
    SyncPrefix(costs, Midway(costs, s, rows), rows, id, s.seqNo);
  }

  // ---------------------------------------------------------------- exactly when closed orders stay

  /** The i-th operation begins no reconcile, or its list closes orders on record. */
  predicate ClosesAt(costs: CostModel, first: Session, ops: seq<Operation>, i: nat)
    requires i < |ops|
  {
    ListOf(ops[i]).Some? ==> ClosesOnRecord(At(costs, first, ops, i), ListOf(ops[i]).value)
  }

  /** A crash inside the i-th operation leaves closed orders alone. */
  ghost predicate CutsKeepAt(costs: CostModel, first: Session, ops: seq<Operation>, i: nat)
    requires i < |ops|
  {
    ListOf(ops[i]).Some? ==> CutsKeepClosed(costs, At(costs, first, ops, i), ListOf(ops[i]).value)
  }

  lemma {:induction false} OnRecordAt(costs: CostModel, first: Session, ops: seq<Operation>, i: nat)
    requires Working(costs, first, ops) && i <= |ops| && forall j :: 0 <= j < i ==> ClosesAt(costs, first, ops, j)
    ensures ClosedOnRecord(At(costs, first, ops, i))
  {
    if i == 0 {
      FirstMoment(costs, first, ops);
      MirroredIsOnRecord(costs, first.ledger, first);
    } else {
      OnRecordAt(costs, first, ops, i - 1);
      NextMoment(costs, first, ops, i - 1);
      assert ClosesAt(costs, first, ops, i - 1);
      OperationOnRecord(costs, first.ledger, At(costs, first, ops, i - 1), ops[i - 1]);
    }
  }

  lemma KeptAt(costs: CostModel, first: Session, ops: seq<Operation>, i: nat)
    requires Working(costs, first, ops) && i <= |ops| && forall j :: 0 <= j < |ops| ==> ClosesAt(costs, first, ops, j)
    ensures ClosedKept(costs, At(costs, first, ops, i))
  {
    OnRecordAt(costs, first, ops, i);
    MomentKept(costs, first, ops, i);
    OnRecordIsKept(costs, first.ledger, At(costs, first, ops, i));
  }

  lemma OperationCutsKept(costs: CostModel, start: Balance, s: Session, op: Operation)
    requires SoundCosts(costs) && Kept(costs, start, s) && MayOperate(costs, s, op) && ClosedOnRecord(s)
    requires ListOf(op).Some? && ClosesOnRecord(s, ListOf(op).value)
    ensures CutsKeepClosed(costs, s, ListOf(op).value)
  {
    ListKeepsClosed(costs, start, s, ListOf(op).value);
  }

  lemma CutsKeptAt(costs: CostModel, first: Session, ops: seq<Operation>, i: nat)
    requires Working(costs, first, ops) && i < |ops| && ClosedOnRecord(At(costs, first, ops, i)) && ClosesAt(costs, first, ops, i)
    ensures CutsKeepAt(costs, first, ops, i)
  {
    if ListOf(ops[i]).Some? {
      NextMoment(costs, first, ops, i);
      OperationCutsKept(costs, first.ledger, At(costs, first, ops, i), ops[i]);
    }
  }

  lemma ClosesWhereCutsKeep(costs: CostModel, first: Session, ops: seq<Operation>, i: nat)
    requires Working(costs, first, ops) && i < |ops| && CutsKeepAt(costs, first, ops, i)
    ensures ClosesAt(costs, first, ops, i)
  {
    if !ClosesAt(costs, first, ops, i) {
      var s, rows := At(costs, first, ops, i), ListOf(ops[i]).value;
      NextMoment(costs, first, ops, i);
      var mid := Adopted(s.orders, rows, s.seqNo);
      var id :| id in mid && FillsFitTo(s, rows, id) && ClosedOff(mid, rows, id, Recorded(s).orders[id].filledAmount);
      ClosedOffCut(costs, first.ledger, s, rows, id);
    }
  }

  /** EXACT CONDITION. On a working day every restart leaves closed orders as they were, at any moment and wherever a
      reconcile is cut, if and only if no list closes an order, without bringing it a fill, at another amount than the
      recorded one; orders after a fill on top of an unrecorded amount do not count, as nothing restarts from there. */
  lemma ClosedStayExactly(costs: CostModel, first: Session, ops: seq<Operation>)
    requires Working(costs, first, ops)
    ensures (forall i :: 0 <= i <= |ops| ==> ClosedKept(costs, At(costs, first, ops, i)))
            && (forall i :: 0 <= i < |ops| ==> CutsKeepAt(costs, first, ops, i))
            <==> forall i :: 0 <= i < |ops| ==> ClosesAt(costs, first, ops, i)
  {
    if forall i :: 0 <= i < |ops| ==> ClosesAt(costs, first, ops, i) {
      forall i | 0 <= i <= |ops|
        ensures ClosedKept(costs, At(costs, first, ops, i))
      {
        KeptAt(costs, first, ops, i);
      }
      forall i | 0 <= i < |ops|
        ensures CutsKeepAt(costs, first, ops, i)
      {
        OnRecordAt(costs, first, ops, i);
        CutsKeptAt(costs, first, ops, i);
      }
    }
    if forall i :: 0 <= i < |ops| ==> CutsKeepAt(costs, first, ops, i) {
      forall i | 0 <= i < |ops|
        ensures ClosesAt(costs, first, ops, i)
      {
        ClosesWhereCutsKeep(costs, first, ops, i);
      }
    }
  }

  // ---------------------------------------------------------------- and then never change

  /** A restart inside a reconcile finds the orders that were closed before it as they were. */
  lemma CutClosedBefore(costs: CostModel, start: Balance, s: Session, rows: seq<Row>, n: nat)
    requires SoundCosts(costs) && Kept(costs, start, s) && NoPending(s.orders) && GoodSnapshot(rows) && CutRestarts(costs, s, rows, n)
    requires ClosedOnRecord(s)
    ensures ClosedAgree(s.orders, CutResumed(costs, s, rows, n).orders)
  {
    var c, a, run := ReadableCut(costs, start, s, rows, n);
    var t, x, r := Recorded(s), Trail(Recorded(s), s, a), CutResumed(costs, s, rows, n);
    RunAdvances(costs, start, t, run);
    CrashInv(costs, start, x);
    CrashAdvances(r, x);
    LaterTransitive(t.orders, x.orders, r.orders);
    LaterKeepsClosed(t.orders, s.orders, r.orders);
  }

  lemma LaterKeepsClosed(t: Orders, s: Orders, after: Orders)
    requires AllLater(t, after) && t.Keys == s.Keys
    requires forall id :: id in Visible(s) && s[id].Terminal() ==> t[id] == s[id]
    ensures ClosedAgree(s, after)
  {
    forall id | id in Visible(s) && s[id].Terminal()
      ensures id in after && after[id] == s[id].(createdAt := after[id].createdAt)
    {
      assert id in Visible(t);
    }
  }

  lemma OperationKeepsClosed(costs: CostModel, start: Balance, s: Session, op: Operation)
    requires SoundCosts(costs) && Kept(costs, start, s) && MayOperate(costs, s, op) && ClosedOnRecord(s)
    ensures ClosedAgree(s.orders, Operate(costs, s, op).orders)
  {
    match op
    case Do(a) => ActionAdvances(costs, s, a);
    case DoReconcile(rows) =>
      forall id | id in s.orders && s.orders[id].Terminal()
        ensures id in Reconcile(costs, s, rows).0.orders && Reconcile(costs, s, rows).0.orders[id] == s.orders[id]
      {
        ClosedStays(costs, start, s, rows, id);
      }
    case Fall => OnRecordIsKept(costs, start, s);
    case FallIn(rows, n) => CutClosedBefore(costs, start, s, rows, n);
  }

  lemma ClosedTransitive(a: Orders, b: Orders, c: Orders)
    requires ClosedAgree(a, b) && ClosedAgree(b, c)
    ensures ClosedAgree(a, c)
  {
    forall id | id in Visible(a) && a[id].Terminal()
      ensures id in c && c[id] == a[id].(createdAt := c[id].createdAt)
    {
      assert id in Visible(b);
    }
  }

  /** So on such a day a closed order never changes: from any moment to any later one it keeps its fill, its amount, its
      number and its status. */
  lemma {:induction false} ClosedNeverChange(costs: CostModel, first: Session, ops: seq<Operation>, i: nat, j: nat)
    requires Working(costs, first, ops) && i <= j <= |ops| && forall k :: 0 <= k < |ops| ==> ClosesAt(costs, first, ops, k)
    ensures ClosedAgree(At(costs, first, ops, i).orders, At(costs, first, ops, j).orders)
  {
    if i < j {
      ClosedNeverChange(costs, first, ops, i, j - 1);
      OnRecordAt(costs, first, ops, j - 1);
      NextMoment(costs, first, ops, j - 1);
      OperationKeepsClosed(costs, first.ledger, At(costs, first, ops, j - 1), ops[j - 1]);
      ClosedTransitive(At(costs, first, ops, i).orders, At(costs, first, ops, j - 1).orders, At(costs, first, ops, j).orders);
    }
  }
}
