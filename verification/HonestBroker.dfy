/** What has to be known of the broker, and what of the session, for a restart to continue it at every moment of the day:
    a broker that never restates an amount is enough where no list offers a numbered order in doubt another row. */
module HonestBroker {
  import opened Contracts
  import opened Accounting
  import opened Recovery
  import opened Sessions
  import opened Replay
  import opened Invariants
  import opened Reconciling
  import opened Adoption
  import opened ExactlyOnce
  import opened Restating
  import opened RestartedReconcile
  import opened Operations
  import opened WorkingDays

  /** Rows of one number and quantity show one amount. */
  predicate Agree(a: seq<Row>, b: seq<Row>) {
    forall k, l :: 0 <= k < |a| && 0 <= l < |b| && a[k].no == b[l].no && a[k].filledQty == b[l].filledQty ==>
      a[k].filledAmount == b[l].filledAmount
  }

  /** The broker never restates an amount, and what is not filled has cost nothing. */
  predicate Honest(ops: seq<Operation>) {
    && (forall i :: 0 <= i < |ops| && ListOf(ops[i]).Some? ==> UnfilledIsFree(ListOf(ops[i]).value))
    && (forall i, j :: 0 <= i <= j < |ops| && ListOf(ops[i]).Some? && ListOf(ops[j]).Some? ==>
          Agree(ListOf(ops[i]).value, ListOf(ops[j]).value))
  }

  /** The i-th operation begins no reconcile, or its list offers no numbered order in doubt exactly one unclaimed row. */
  predicate CheckedAt(costs: CostModel, first: Session, ops: seq<Operation>, i: nat)
    requires i < |ops|
  {
    ListOf(ops[i]).Some? ==> !Readoptable(At(costs, first, ops, i).orders, ListOf(ops[i]).value)
  }

  // ---------------------------------------------------------------- every fill was shown for the number

  /** The order's fill is that of a row under its number. */
  predicate Shown(o: Order, rows: seq<Row>) {
    exists k :: 0 <= k < |rows| && o.ref.no == Some(rows[k].no)
                && rows[k].filledQty == o.filledQty && rows[k].filledAmount == o.filledAmount
  }

  predicate Traced(o: Order, ops: seq<Operation>, n: nat) {
    || (o.filledQty == 0 && o.filledAmount == 0)
    || exists i :: 0 <= i < n && i < |ops| && ListOf(ops[i]).Some? && Shown(o, ListOf(ops[i]).value)
  }

  predicate AllTraced(orders: Orders, ops: seq<Operation>, n: nat) {
    forall id :: id in orders ==> Traced(orders[id], ops, n)
  }

  lemma TracedOn(o: Order, p: Order, ops: seq<Operation>, n: nat)
    requires Traced(o, ops, n)
    requires p.filledQty == o.filledQty && p.filledAmount == o.filledAmount
    requires p.ref == o.ref || (o.filledQty == 0 && o.filledAmount == 0)
    ensures Traced(p, ops, n + 1)
  {
    if o.filledQty != 0 || o.filledAmount != 0 {
      var i :| 0 <= i < n && i < |ops| && ListOf(ops[i]).Some? && Shown(o, ListOf(ops[i]).value);
      assert Shown(p, ListOf(ops[i]).value);
    }
  }

  lemma TracedStands(o: Order, ops: seq<Operation>, n: nat)
    requires Honest(ops) && n < |ops| && ListOf(ops[n]).Some? && Traced(o, ops, n)
    ensures AmountStands(o, ListOf(ops[n]).value)
  {
    var rows := ListOf(ops[n]).value;
    if RowFor(o, rows).Some? && RowFor(o, rows).value.filledQty == o.filledQty {
      RowOfFacts(rows, o.ref.no.value);
      var row := RowFor(o, rows).value;
      var l :| 0 <= l < |rows| && rows[l] == row;
      if o.filledQty != 0 || o.filledAmount != 0 {
        var i :| 0 <= i < n && i < |ops| && ListOf(ops[i]).Some? && Shown(o, ListOf(ops[i]).value);
        var seen := ListOf(ops[i]).value;
        var k :| 0 <= k < |seen| && o.ref.no == Some(seen[k].no) && seen[k].filledQty == o.filledQty
                 && seen[k].filledAmount == o.filledAmount;
        assert Agree(seen, rows);
      }
    }
  }

  /** The list of an honest broker, checked, moves amounts only with quantities. */
  lemma HonestStands(s: Session, ops: seq<Operation>, n: nat)
    requires Honest(ops) && n < |ops| && ListOf(ops[n]).Some? && Shape(s) && AllTraced(s.orders, ops, n)
    requires !Readoptable(s.orders, ListOf(ops[n]).value)
    ensures StandsTo(Adopted(s.orders, ListOf(ops[n]).value, s.seqNo), ListOf(ops[n]).value)
  {
    var rows := ListOf(ops[n]).value;
    forall id | id in s.orders
      ensures AmountStands(s.orders[id], rows)
    {
      TracedStands(s.orders[id], ops, n);
    }
    AmountsStandAfterAdoption(s, rows);
  }

  // ---------------------------------------------------------------- every operation keeps the trace

  lemma ActionTraced(costs: CostModel, s: Session, ops: seq<Operation>, n: nat, a: Action)
    requires Shape(s) && Enabled(s, a) && !a.Adopt? && !a.Book? && AllTraced(s.orders, ops, n)
    ensures AllTraced(Next(costs, s, a).orders, ops, n + 1)
  {
    var after := Next(costs, s, a);
    forall id | id in after.orders
      ensures Traced(after.orders[id], ops, n + 1)
    {
      if id in s.orders && id <= s.seqNo {
        assert OrderOk(id, s.orders[id]);
        TracedOn(s.orders[id], after.orders[id], ops, n);
      }
    }
  }

  lemma CrashTraced(r: Session, s: Session, ops: seq<Operation>, n: nat)
    requires Continues(r, s) && AllTraced(s.orders, ops, n)
    ensures AllTraced(r.orders, ops, n + 1)
  {
    forall id | id in r.orders
      ensures Traced(r.orders[id], ops, n + 1)
    {
      TracedOn(s.orders[id], r.orders[id], ops, n);
    }
  }

  /** The order has the fill it had, or that of its row. */
  predicate FillsBy(p: Order, o: Order, rows: seq<Row>) {
    && p.ref == o.ref
    && (|| (p.filledQty == o.filledQty && p.filledAmount == o.filledAmount)
        || (RowFor(o, rows).Some? && p.filledQty == RowFor(o, rows).value.filledQty
            && p.filledAmount == RowFor(o, rows).value.filledAmount))
  }

  lemma FillTraced(p: Order, o: Order, ops: seq<Operation>, n: nat)
    requires n < |ops| && ListOf(ops[n]).Some? && Traced(o, ops, n + 1) && FillsBy(p, o, ListOf(ops[n]).value)
    ensures Traced(p, ops, n + 1)
  {
    var rows := ListOf(ops[n]).value;
    if p.filledQty == o.filledQty && p.filledAmount == o.filledAmount {
      if o.filledQty != 0 || o.filledAmount != 0 {
        var i :| 0 <= i < n + 1 && i < |ops| && ListOf(ops[i]).Some? && Shown(o, ListOf(ops[i]).value);
        assert Shown(p, ListOf(ops[i]).value);
      }
    } else {
      RowOfFacts(rows, o.ref.no.value);
      var k :| 0 <= k < |rows| && rows[k] == RowFor(o, rows).value;
      assert Shown(p, rows);
    }
  }

  lemma AdoptedTraced(s: Session, ops: seq<Operation>, n: nat, rows: seq<Row>, k: nat)
    requires Shape(s) && AllTraced(s.orders, ops, n) && !Readoptable(s.orders, rows)
    ensures AllTraced(Adopted(s.orders, rows, k), ops, n + 1)
  {
    var mid := Adopted(s.orders, rows, k);
    forall id | id in mid
      ensures Traced(mid[id], ops, n + 1)
    {
      assert OrderOk(id, s.orders[id]) && !Replaceable(s.orders, rows, id);
      TracedOn(s.orders[id], mid[id], ops, n);
    }
  }

  lemma AllFillsTraced(mid: Orders, after: Orders, ops: seq<Operation>, n: nat)
    requires n < |ops| && ListOf(ops[n]).Some? && AllTraced(mid, ops, n + 1) && after.Keys == mid.Keys
    requires forall id :: id in mid ==> FillsBy(after[id], mid[id], ListOf(ops[n]).value)
    ensures AllTraced(after, ops, n + 1)
  {
    forall id | id in after
      ensures Traced(after[id], ops, n + 1)
    {
      FillTraced(after[id], mid[id], ops, n);
    }
  }

  lemma TakenFills(orders: Orders, rows: seq<Row>, n: nat)
    ensures forall id :: id in orders ==> FillsBy(TakenTo(orders, rows, n)[id], orders[id], rows)
  {
  }

  lemma ReconcileTraced(costs: CostModel, start: Balance, s: Session, ops: seq<Operation>, n: nat)
    requires SoundCosts(costs) && Lawful(start, s) && NoPending(s.orders) && AllTraced(s.orders, ops, n)
    requires n < |ops| && ops[n].DoReconcile? && GoodSnapshot(ops[n].rows) && !Readoptable(s.orders, ops[n].rows)
    ensures AllTraced(Reconcile(costs, s, ops[n].rows).0.orders, ops, n + 1)
  {
    var rows := ops[n].rows;
    var mid := AdoptTo(costs, s, rows, s.seqNo).0;
    AdoptedTraced(s, ops, n, rows, s.seqNo);
    LoopDecidesAtOnce(costs, s, rows, s.seqNo);
    assert Steady(start, mid) by { AdoptToLawful(costs, start, s, rows, s.seqNo); }
    SyncDecidesAtOnce(costs, start, mid, rows, s.seqNo);
    TakenFills(mid.orders, rows, s.seqNo);
    AllFillsTraced(mid.orders, TakenTo(mid.orders, rows, s.seqNo), ops, n);
  }

  // ---------------------------------------------------------------- also a crash inside a reconcile

  /** A cut in the second loop: every order has the fill it had, or that of its row. */
  lemma CutFills(costs: CostModel, start: Balance, mid: Session, rows: seq<Row>, c: Cut, a: Session)
    requires Ready(costs, start, mid, rows) && SyncCutAt(costs, mid, rows, c, a)
    ensures a.orders.Keys == mid.orders.Keys && forall id :: id in mid.orders ==> FillsBy(a.orders[id], mid.orders[id], rows)
  {
    if c.BetweenTurns? {
      SyncDecidesAtOnce(costs, start, mid, rows, c.turn);
      TakenFills(mid.orders, rows, c.turn);
    } else {
      var k := c.turn;
      var t := SyncTo(costs, mid, rows, k - 1).0;
      assert t.orders == TakenTo(mid.orders, rows, k - 1) by { SyncDecidesAtOnce(costs, start, mid, rows, k - 1); }
      TakenFills(mid.orders, rows, k - 1);
      assert a.orders == t.orders[k := WithFill(t.orders[k], RowFor(t.orders[k], rows).value)] by {
        SyncToUnfolds(costs, mid, rows, k);
        TurnBegins(costs, start, mid, rows, k);
        SyncRowQuiet(costs, t, rows, k);
        FillPartOrders(costs, t, rows, k, RowFor(t.orders[k], rows).value);
      }
    }
  }

  lemma TrailFills(s: Session, a: Session, mid: Orders, rows: seq<Row>)
    requires s.orders.Keys == mid.Keys == a.orders.Keys && forall id :: id in mid ==> FillsBy(a.orders[id], mid[id], rows)
    requires forall id :: id in mid ==> mid[id].filledQty == s.orders[id].filledQty && mid[id].filledAmount == s.orders[id].filledAmount
    ensures forall id :: id in mid ==> FillsBy(Trail(s, s, a).orders[id], mid[id], rows)
  {
  }

  lemma CutTraced(costs: CostModel, start: Balance, s: Session, ops: seq<Operation>, n: nat, c: Cut, a: Session)
    requires n < |ops| && ListOf(ops[n]).Some? && Ready(costs, start, s, ListOf(ops[n]).value)
    requires AllTraced(s.orders, ops, n) && !Readoptable(s.orders, ListOf(ops[n]).value)
    requires CutState(costs, s, ListOf(ops[n]).value, c, a)
    ensures AllTraced(Trail(s, s, a).orders, ops, n + 1)
  {
    var rows := ListOf(ops[n]).value;
    if c.InAdoption? {
      AdoptedTraced(s, ops, n, rows, c.turn);
      LoopDecidesAtOnce(costs, s, rows, c.turn);
      AdoptKeepsFills(costs, s, rows, c.turn);
      assert Trail(s, s, a).orders == a.orders;
    } else {
      SyncCutTraced(costs, start, s, ops, n, c, a);
    }
  }

  lemma SyncCutTraced(costs: CostModel, start: Balance, s: Session, ops: seq<Operation>, n: nat, c: Cut, a: Session)
    requires n < |ops| && ListOf(ops[n]).Some? && Ready(costs, start, s, ListOf(ops[n]).value)
    requires AllTraced(s.orders, ops, n) && !Readoptable(s.orders, ListOf(ops[n]).value)
    requires SyncCutAt(costs, Midway(costs, s, ListOf(ops[n]).value), ListOf(ops[n]).value, c, a)
    ensures AllTraced(Trail(s, s, a).orders, ops, n + 1)
  {
    var rows := ListOf(ops[n]).value;
    var mid := Midway(costs, s, rows);
    assert Ready(costs, start, mid, rows) && mid.orders == Adopted(s.orders, rows, s.seqNo) by {
      MidwayIsReady(costs, start, s, rows);
    }
    AdoptedTraced(s, ops, n, rows, s.seqNo);
    assert a.orders.Keys == mid.orders.Keys && forall id :: id in mid.orders ==> FillsBy(a.orders[id], mid.orders[id], rows) by {
      CutFills(costs, start, mid, rows, c, a);
    }
    AdoptKeepsFills(costs, s, rows, s.seqNo);
    TrailTraced(s, a, mid.orders, ops, n);
  }

  lemma TrailTraced(s: Session, a: Session, mid: Orders, ops: seq<Operation>, n: nat)
    requires n < |ops| && ListOf(ops[n]).Some? && AllTraced(mid, ops, n + 1)
    requires s.orders.Keys == mid.Keys == a.orders.Keys
    requires forall id :: id in mid ==> FillsBy(a.orders[id], mid[id], ListOf(ops[n]).value)
    requires forall id :: id in mid ==> mid[id].filledQty == s.orders[id].filledQty && mid[id].filledAmount == s.orders[id].filledAmount
    ensures AllTraced(Trail(s, s, a).orders, ops, n + 1)
  {
    TrailFills(s, a, mid, ListOf(ops[n]).value);
    AllFillsTraced(mid, Trail(s, s, a).orders, ops, n);
  }

  lemma FallInTraced(costs: CostModel, start: Balance, s: Session, ops: seq<Operation>, n: nat)
    requires SoundCosts(costs) && Inv(costs, start, s) && n < |ops| && ops[n].FallIn? && MayOperate(costs, s, ops[n])
    requires AllTraced(s.orders, ops, n) && !Readoptable(s.orders, ops[n].rows)
    ensures AllTraced(Operate(costs, s, ops[n]).orders, ops, n + 1)
  {
    var rows := ops[n].rows;
    var c, a, run := FindCut(costs, start, s, rows, ops[n].n);
    var x := Trail(s, s, a);
    CutTraced(costs, start, s, ops, n, c, a);
    assert Inv(costs, start, x) by { RunInv(costs, start, s, run); }
    CrashInv(costs, start, x);
    RestoredTraced(CutResumed(costs, s, rows, ops[n].n), x, ops, n + 1);
  }

  lemma RestoredTraced(r: Session, x: Session, ops: seq<Operation>, n: nat)
    requires Continues(r, x) && AllTraced(x.orders, ops, n)
    ensures AllTraced(r.orders, ops, n)
  {
    forall id | id in r.orders
      ensures Traced(r.orders[id], ops, n)
    {
      var o := x.orders[id];
      if o.filledQty != 0 || o.filledAmount != 0 {
        var i :| 0 <= i < n && i < |ops| && ListOf(ops[i]).Some? && Shown(o, ListOf(ops[i]).value);
        assert Shown(r.orders[id], ListOf(ops[i]).value);
      }
    }
  }

  lemma OperationTraced(costs: CostModel, start: Balance, s: Session, ops: seq<Operation>, n: nat)
    requires SoundCosts(costs) && Inv(costs, start, s) && n < |ops| && MayOperate(costs, s, ops[n]) && AllTraced(s.orders, ops, n)
    requires ListOf(ops[n]).Some? ==> !Readoptable(s.orders, ListOf(ops[n]).value)
    ensures AllTraced(Operate(costs, s, ops[n]).orders, ops, n + 1)
  {
    match ops[n]
    case Do(a) => ActionTraced(costs, s, ops, n, a);
    case DoReconcile(rows) => ReconcileTraced(costs, start, s, ops, n);
    case Fall =>
      CrashInv(costs, start, s);
      CrashTraced(Resume(costs, s.journal).value, s, ops, n);
    case FallIn(rows, _) => FallInTraced(costs, start, s, ops, n);
  }

  lemma {:induction false} HonestDay(costs: CostModel, first: Session, ops: seq<Operation>, n: nat)
    requires Working(costs, first, ops) && Honest(ops) && n <= |ops|
    requires forall i :: 0 <= i < |ops| ==> CheckedAt(costs, first, ops, i)
    ensures AllTraced(At(costs, first, ops, n).orders, ops, n)
    ensures forall i :: 0 <= i < n ==> StandsAt(costs, first, ops, i)
  {
    if n == 0 {
      FirstMoment(costs, first, ops);
    } else {
      HonestDay(costs, first, ops, n - 1);
      assert Inv(costs, first.ledger, At(costs, first, ops, n - 1)) by { StandingInv(costs, first, ops, n - 1); }
      HonestStep(costs, first, ops, n - 1);
    }
  }

  lemma HonestStep(costs: CostModel, first: Session, ops: seq<Operation>, n: nat)
    requires Working(costs, first, ops) && Honest(ops) && n < |ops| && CheckedAt(costs, first, ops, n)
    requires Inv(costs, first.ledger, At(costs, first, ops, n)) && AllTraced(At(costs, first, ops, n).orders, ops, n)
    ensures AllTraced(At(costs, first, ops, n + 1).orders, ops, n + 1) && StandsAt(costs, first, ops, n)
  {
    var s := At(costs, first, ops, n);
    NextMoment(costs, first, ops, n);
    if ops[n].DoReconcile? {
      HonestStands(s, ops, n);
    }
    OperationTraced(costs, first.ledger, s, ops, n);
  }

  /** HONEST BROKER. If the broker never restates an amount, and every list is checked to offer no numbered order in doubt
      exactly one unclaimed row, a restart continues the session at every moment of the day. */
  lemma HonestDayReplays(costs: CostModel, first: Session, ops: seq<Operation>, i: nat)
    requires Working(costs, first, ops) && Honest(ops) && i <= |ops|
    requires forall j :: 0 <= j < |ops| ==> CheckedAt(costs, first, ops, j)
    ensures Replays(costs, At(costs, first, ops, i))
  {
    HonestDay(costs, first, ops, |ops|);
    StandingInv(costs, first, ops, i);
    MirroredReplays(costs, first.ledger, At(costs, first, ops, i));
  }
}
