/** Which order a broker number belongs to, over days told by their operations: submits and the other single actions,
    whole reconciles, and crashes. The condition is one that can be checked before each reconcile. */
module Ownership {
  import opened Contracts
  import opened Accounting
  import opened Recovery
  import opened Sessions
  import opened Replay
  import opened Invariants
  import opened Reconciling
  import opened Adoption
  import opened ExactlyOnce
  import opened Restating
  import opened RestartedReconcile
  import opened Repeating
  import opened Guarantees
  import opened Operations

  // ---------------------------------------------------------------- one reconcile

  /** EXACT CONDITION. A reconcile leaves every number with the order that holds it if and only if no numbered order in
      doubt has exactly one unclaimed row. */
  lemma ReconcileKeepsNumbersExactly(costs: CostModel, s: Session, rows: seq<Row>)
    requires Shape(s) && OneUnsurePerKey(s.orders) && GoodSnapshot(rows)
    ensures NumbersStay(s.orders, Reconcile(costs, s, rows).0.orders) <==> !Readoptable(s.orders, rows)
  {
    ReconcileRefs(costs, s, rows);
    if Readoptable(s.orders, rows) {
      var id :| id in s.orders && Replaceable(s.orders, rows, id);
      CandidateFacts(s.orders[id], rows, Known(s.orders), 0);
      assert Adopted(s.orders, rows, s.seqNo)[id].ref != s.orders[id].ref;
    } else {
      forall id | id in s.orders && s.orders[id].Numbered()
        ensures Adopted(s.orders, rows, s.seqNo)[id].ref == s.orders[id].ref
      {
        assert !Replaceable(s.orders, rows, id);
      }
    }
  }

  /** A number that is given up is held by nobody after the reconcile, so that a later one may give it to another order. */
  lemma GivenUpIsFree(costs: CostModel, s: Session, rows: seq<Row>, id: nat)
    requires Shape(s) && Exclusive(s.orders) && GoodSnapshot(rows) && id in s.orders && Replaceable(s.orders, rows, id)
    ensures s.orders[id].ref.no.value !in Known(Reconcile(costs, s, rows).0.orders)
  {
    ReconcileRefs(costs, s, rows);
    AbandonedNumberIsFree(s.orders, rows, id, s.seqNo);
    var after, adopted := Reconcile(costs, s, rows).0.orders, Adopted(s.orders, rows, s.seqNo);
    forall k | k in after && after[k].Numbered()
      ensures after[k].ref.no.value in Known(adopted)
    {
      assert adopted[k].Numbered() && adopted[k].ref == after[k].ref;
    }
  }

  // ---------------------------------------------------------------- days of operations

  /** The operation begins no reconcile while a numbered order in doubt has exactly one unclaimed row. */
  predicate Checked(s: Session, op: Operation) { ListOf(op).Some? ==> !Readoptable(s.orders, ListOf(op).value) }

  predicate AllChecked(costs: CostModel, s: Session, ops: seq<Operation>) {
    ops == [] ||
    (var before, op := ops[..|ops| - 1], ops[|ops| - 1];
     AllChecked(costs, s, before) && Checked(OperateAll(costs, s, before), op))
  }

  lemma ContinuesKeepsNumbers(r: Session, x: Session, s: Session)
    requires Continues(r, x) && Shape(x) && NumbersStay(s.orders, x.orders)
    ensures NumbersStay(s.orders, r.orders)
  {
  }

  lemma AdoptedKeepsNumbers(orders: Orders, rows: seq<Row>, n: nat)
    requires !Readoptable(orders, rows)
    ensures NumbersStay(orders, Adopted(orders, rows, n))
  {
    forall id | id in orders && orders[id].Numbered()
      ensures Adopted(orders, rows, n)[id].ref == orders[id].ref
    {
      assert !Replaceable(orders, rows, id);
    }
  }

  lemma SyncCutRefs(costs: CostModel, mid: Session, rows: seq<Row>, c: Cut, a: Session)
    requires SyncCutAt(costs, mid, rows, c, a)
    ensures a.orders.Keys == mid.orders.Keys && forall id :: id in mid.orders ==> a.orders[id].ref == mid.orders[id].ref
  {
    if c.BetweenTurns? {
      SyncKeepsRefs(costs, mid, rows, c.turn);
    } else {
      SyncKeepsRefs(costs, mid, rows, c.turn - 1);
      var t := SyncTo(costs, mid, rows, c.turn - 1).0;
      HalfTurnRefs(costs, t, c.turn, RowFor(t.orders[c.turn], rows).value);
    }
  }

  lemma HalfTurnRefs(costs: CostModel, t: Session, id: nat, row: Row)
    requires id in t.orders
    ensures var a := FillPart(costs, t, id, row);
            a.orders.Keys == t.orders.Keys && forall k :: k in t.orders ==> a.orders[k].ref == t.orders[k].ref
  {
  }

  /** A cut keeps the numbers that the first loop keeps. */
  lemma CutKeepsNumbers(costs: CostModel, s: Session, rows: seq<Row>, c: Cut, a: Session)
    requires OneUnsurePerKey(s.orders) && DistinctRows(rows) && CutState(costs, s, rows, c, a) && !Readoptable(s.orders, rows)
    ensures NumbersStay(s.orders, a.orders)
  {
    if c.InAdoption? {
      LoopDecidesAtOnce(costs, s, rows, c.turn);
      AdoptedKeepsNumbers(s.orders, rows, c.turn);
    } else {
      LoopDecidesAtOnce(costs, s, rows, s.seqNo);
      AdoptedKeepsNumbers(s.orders, rows, s.seqNo);
      assert SyncCutAt(costs, Midway(costs, s, rows), rows, c, a);
      SyncCutRefs(costs, Midway(costs, s, rows), rows, c, a);
    }
  }

  lemma CrashInReconcile(costs: CostModel, start: Balance, s: Session, rows: seq<Row>, n: nat)
    requires SoundCosts(costs) && Kept(costs, start, s) && NoPending(s.orders) && GoodSnapshot(rows) && CutRestarts(costs, s, rows, n)
    requires !Readoptable(s.orders, rows)
    ensures NumbersStay(s.orders, CutResumed(costs, s, rows, n).orders)
  {
    var c, a, run := ReadableCut(costs, start, s, rows, n);
    var x := Trail(Recorded(s), s, a);
    assert NumbersStay(s.orders, x.orders) by { CutKeepsNumbers(costs, s, rows, c, a); }
    CrashInv(costs, start, x);
    ContinuesKeepsNumbers(CutResumed(costs, s, rows, n), x, s);
  }

  lemma OperationKeepsNumbers(costs: CostModel, start: Balance, s: Session, op: Operation)
    requires SoundCosts(costs) && Kept(costs, start, s) && MayOperate(costs, s, op) && Checked(s, op)
    ensures NumbersStay(s.orders, Operate(costs, s, op).orders)
  {
    match op
    case Do(a) => ActionKeepsNumbers(costs, s, a);
    case DoReconcile(rows) => ReconcileKeepsNumbersExactly(costs, s, rows);
    case Fall =>
      LegibleRestarts(costs, start, s);
      RecordedShadows(s);
      ContinuesKeepsNumbers(Step(costs, s, Crash), Recorded(s), s);
    case FallIn(rows, n) => CrashInReconcile(costs, start, s, rows, n);
  }

  lemma {:induction false} OperationsKeepNumbers(costs: CostModel, start: Balance, s: Session, ops: seq<Operation>)
    requires SoundCosts(costs) && Kept(costs, start, s) && AllMayOperate(costs, s, ops) && AllChecked(costs, s, ops)
    ensures NumbersStay(s.orders, OperateAll(costs, s, ops).orders)
  {
    if ops != [] {
      var before := ops[..|ops| - 1];
      OperationsKeepNumbers(costs, start, s, before);
      OperationsKept(costs, start, s, before);
      OperationKeepsNumbers(costs, start, OperateAll(costs, s, before), ops[|ops| - 1]);
    }
  }

  /** ONE OWNER. On any working day whose lists were checked before they were worked off, a broker number, and with it
      each of its fills, belongs to one order for good: an order that holds it at any later time is the same order. */
  lemma OneOwnerPerNumber(costs: CostModel, first: Session, ops: seq<Operation>, more: seq<Operation>, a: nat, b: nat)
    requires Working(costs, first, ops)
    requires var now := OperateAll(costs, first, ops);
             && AllMayOperate(costs, now, more) && AllChecked(costs, now, more)
             && a in now.orders && now.orders[a].Numbered()
             && b in OperateAll(costs, now, more).orders
             && OperateAll(costs, now, more).orders[b].ref.no == now.orders[a].ref.no
    ensures a == b
  {
    var now := OperateAll(costs, first, ops);
    WorkingKept(costs, first, ops);
    OperationsKeepNumbers(costs, first.ledger, now, more);
    OperationsKept(costs, first.ledger, now, more);
  }
}
