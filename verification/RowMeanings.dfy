/** What a broker row means for its order, told by the fields of the list: the status a reconcile gives an order, when
    its turn raises, and how status and fill go together over whole days. */
module RowMeanings {
  import opened Contracts
  import opened Accounting
  import opened Recovery
  import opened Sessions
  import opened Replay
  import opened Invariants
  import opened Reconciling
  import opened Adoption
  import opened ExactlyOnce
  import opened Restating
  import opened Operations
  import opened CatchingUp
  import opened WorkingDays

  // ---------------------------------------------------------------- the fields

  /** The row is marked cancelled, or another row of the list names it as the order it amends. */
  predicate ShowsCancel(rows: seq<Row>, row: Row) {
    row.cancelled || exists k :: 0 <= k < |rows| && rows[k].original == row.no && rows[k].no != row.no
  }

  /** Nothing was filled, some of it was rejected, and nobody cancelled it. */
  predicate ShowsReject(rows: seq<Row>, row: Row) {
    row.filledQty == 0 && row.rejectedQty > 0 && !ShowsCancel(rows, row)
  }

  /** Nothing more will be filled. */
  predicate ShowsEnd(rows: seq<Row>, row: Row) {
    ShowsCancel(rows, row) || row.rejectedQty > 0 || row.remainingQty == 0
  }

  /** The row says that its order has this status. */
  predicate Says(rows: seq<Row>, row: Row, status: OrderStatus) {
    match status
    case Filled => row.filledQty == row.orderedQty
    case Rejected => row.filledQty != row.orderedQty && ShowsReject(rows, row)
    case Cancelled => row.filledQty != row.orderedQty && ShowsEnd(rows, row) && !ShowsReject(rows, row)
    case PartiallyFilled => row.filledQty != row.orderedQty && !ShowsEnd(rows, row) && row.filledQty > 0
    case Accepted => row.filledQty != row.orderedQty && !ShowsEnd(rows, row) && row.filledQty == 0
    case _ => false
  }

  /** A row that belongs to an order: the list's row of its number. */
  predicate RowAt(o: Order, rows: seq<Row>, k: int) {
    0 <= k < |rows| && o.ref.no == Some(rows[k].no)
  }

  /** The row runs backwards, goes beyond the order or itself, or shows more shares for less money. */
  predicate Contradicts(o: Order, row: Row) {
    || row.filledQty < o.filledQty || row.filledQty > o.intent.qty || row.filledQty > row.orderedQty
    || (row.filledQty > o.filledQty && row.filledAmount < o.filledAmount)
  }

  // ---------------------------------------------------------------- one row

  lemma {:induction false} RowOfNumber(rows: seq<Row>, k: nat)
    requires DistinctRows(rows) && k < |rows|
    ensures RowOf(rows, rows[k].no) == Some(rows[k])
  {
    var init, last := rows[..|rows| - 1], |rows| - 1;
    if k < last {
      assert rows[k].no != rows[last].no;
      RowOfNumber(init, k);
    }
  }

  lemma RowForAt(o: Order, rows: seq<Row>, k: int)
    requires DistinctRows(rows) && RowAt(o, rows, k) && o.Open()
    ensures RowFor(o, rows) == Some(rows[k])
  {
    RowOfNumber(rows, k);
  }

  lemma NoRowFor(o: Order, rows: seq<Row>)
    requires o.Terminal() || forall k :: 0 <= k < |rows| ==> !RowAt(o, rows, k)
    ensures RowFor(o, rows).None?
  {
    if o.Open() && o.ref.no.Some? {
      RowOfFacts(rows, o.ref.no.value);
      if RowOf(rows, o.ref.no.value).Some? {
        var k :| 0 <= k < |rows| && rows[k] == RowOf(rows, o.ref.no.value).value;
        assert RowAt(o, rows, k);
      }
    }
  }

  /** The status that is derived is the one the row says, and only that one. */
  lemma DerivedIsSaid(rows: seq<Row>, row: Row, status: OrderStatus)
    requires row.no != "" && 0 <= row.filledQty <= row.orderedQty
    ensures DeriveStatus(row, HasCancelChild(rows, row.no)) == Success(status) <==> Says(rows, row, status)
  {
    assert HasCancelChild(rows, row.no) || row.cancelled <==> ShowsCancel(rows, row);
  }

  /** An order's turn raises if and only if its row contradicts it. */
  lemma ReadableExactly(id: nat, o: Order, rows: seq<Row>, k: int)
    requires GoodSnapshot(rows) && RowAt(o, rows, k) && o.Open() && OrderOk(id, o)
    ensures Readable(o, rows) <==> !Contradicts(o, rows[k])
  {
    RowForAt(o, rows, k);
    var row := rows[k];
    if 0 <= row.filledQty <= row.orderedQty {
      var status := if row.filledQty == row.orderedQty then Filled
                    else if ShowsReject(rows, row) then Rejected
                    else if ShowsEnd(rows, row) then Cancelled
                    else if row.filledQty > 0 then PartiallyFilled else OrderStatus.Accepted;
      DerivedIsSaid(rows, row, status);
    }
  }

  // ---------------------------------------------------------------- the whole reconcile

  /** The order as the first loop left it. */
  function Numbered(costs: CostModel, s: Session, rows: seq<Row>, id: nat): Order
    requires id in Midway(costs, s, rows).orders
  {
    Midway(costs, s, rows).orders[id]
  }

  /** The reconcile raises if and only if some open order has a row that contradicts it. */
  lemma RaisesByFields(costs: CostModel, start: Balance, s: Session, rows: seq<Row>)
    requires Ready(costs, start, s, rows)
    ensures var mid := Midway(costs, s, rows).orders;
            Reconcile(costs, s, rows).1.Some?
            <==> exists id, k :: id in mid && mid[id].Open() && RowAt(mid[id], rows, k) && Contradicts(mid[id], rows[k])
  {
    var mid := Midway(costs, s, rows);
    assert Ready(costs, start, mid, rows) && mid.seqNo == s.seqNo by { MidwayIsReady(costs, start, s, rows); }
    SyncDecidesAtOnce(costs, start, mid, rows, s.seqNo);
    ReachedByFields(mid, rows);
  }

  lemma ReachedByFields(mid: Session, rows: seq<Row>)
    requires Shape(mid) && GoodSnapshot(rows)
    ensures !Reached(mid.orders, rows, mid.seqNo)
            <==> exists id, k :: id in mid.orders && mid.orders[id].Open() && RowAt(mid.orders[id], rows, k)
                                 && Contradicts(mid.orders[id], rows[k])
  {
    forall id | id in mid.orders
      ensures Readable(mid.orders[id], rows)
              <==> forall k :: RowAt(mid.orders[id], rows, k) && mid.orders[id].Open() ==> !Contradicts(mid.orders[id], rows[k])
    {
      ReadableByFields(id, mid.orders[id], rows);
    }
  }

  lemma ReadableByFields(id: nat, o: Order, rows: seq<Row>)
    requires GoodSnapshot(rows) && OrderOk(id, o)
    ensures Readable(o, rows) <==> forall k :: RowAt(o, rows, k) && o.Open() ==> !Contradicts(o, rows[k])
  {
    if o.Open() && exists k :: RowAt(o, rows, k) {
      var k :| RowAt(o, rows, k);
      ReadableExactly(id, o, rows, k);
      forall j | RowAt(o, rows, j)
        ensures j == k
      {
      }
    } else {
      NoRowFor(o, rows);
    }
  }

  /** WHAT A RECONCILE MAKES OF A ROW. If the loop got through an open order's turn and the list has a row of its number,
      the order has the row's fill and amount, and it has a status if and only if the row says so. Every other order of
      such a turn is as the first loop left it. */
  lemma StatusByFields(costs: CostModel, start: Balance, s: Session, rows: seq<Row>, id: nat)
    requires Ready(costs, start, s, rows) && id in s.orders && SyncTo(costs, Midway(costs, s, rows), rows, id).1.None?
    ensures id in Midway(costs, s, rows).orders && id in Reconcile(costs, s, rows).0.orders
    ensures var o, p := Numbered(costs, s, rows, id), Reconcile(costs, s, rows).0.orders[id];
            && (forall k :: o.Open() && RowAt(o, rows, k) ==>
                  && p == o.(filledQty := rows[k].filledQty, filledAmount := rows[k].filledAmount, status := p.status)
                  && forall status :: p.status == status <==> Says(rows, rows[k], status))
            && (o.Terminal() || (forall k :: 0 <= k < |rows| ==> !RowAt(o, rows, k)) ==> p == o)
  {
    var mid := Midway(costs, s, rows);
    MidwayIsReady(costs, start, s, rows);
    ReconcileTakes(costs, start, s, rows);
    SyncDecidesAtOnce(costs, start, mid, rows, id);
    var o := mid.orders[id];
    assert OrderOk(id, o) && Readable(o, rows);
    if o.Open() && exists k :: RowAt(o, rows, k) {
      forall k | RowAt(o, rows, k)
        ensures Taken(o, rows) == o.(filledQty := rows[k].filledQty, filledAmount := rows[k].filledAmount, status := Taken(o, rows).status)
        ensures forall status :: Taken(o, rows).status == status <==> Says(rows, rows[k], status)
      {
        TakenByFields(id, o, rows, k);
      }
    } else {
      NoRowFor(o, rows);
    }
  }

  lemma TakenByFields(id: nat, o: Order, rows: seq<Row>, k: int)
    requires GoodSnapshot(rows) && RowAt(o, rows, k) && o.Open() && OrderOk(id, o) && Readable(o, rows)
    ensures var p := Taken(o, rows);
            && p == o.(filledQty := rows[k].filledQty, filledAmount := rows[k].filledAmount, status := p.status)
            && forall status :: p.status == status <==> Says(rows, rows[k], status)
  {
    RowForAt(o, rows, k);
    forall status
      ensures Taken(o, rows).status == status <==> Says(rows, rows[k], status)
    {
      DerivedIsSaid(rows, rows[k], status);
    }
  }

  // ---------------------------------------------------------------- filled means full, over whole days

  /** The rows that belong to orders carry the orders' own quantities. */
  predicate CarryQuantity(orders: Orders, rows: seq<Row>) {
    forall id, k :: id in orders && 0 <= k < |rows| && RowAt(orders[id], rows, k) ==> rows[k].orderedQty == orders[id].intent.qty
  }

  /** Filled orders are full and other closed ones are not. */
  predicate ClosedFits(o: Order) {
    && (o.status.Filled? ==> o.filledQty == o.intent.qty)
    && (o.Terminal() && !o.status.Filled? ==> o.filledQty < o.intent.qty)
  }

  predicate AllClosedFit(orders: Orders) { forall id :: id in Visible(orders) ==> ClosedFits(orders[id]) }

  /** And full ones are filled. */
  predicate AllFilledFit(orders: Orders) {
    forall id :: id in Visible(orders) ==> (orders[id].status.Filled? <==> orders[id].filledQty == orders[id].intent.qty)
  }

  lemma TakenFits(id: nat, o: Order, rows: seq<Row>)
    requires GoodSnapshot(rows) && OrderOk(id, o) && Readable(o, rows) && !o.reject.ByGate?
    requires forall k :: RowAt(o, rows, k) ==> rows[k].orderedQty == o.intent.qty
    ensures ClosedFits(o) ==> ClosedFits(Taken(o, rows))
    ensures (o.status.Filled? <==> o.filledQty == o.intent.qty) ==>
              var p := Taken(o, rows); p.status.Filled? <==> p.filledQty == p.intent.qty
  {
    if o.Open() && exists k :: RowAt(o, rows, k) {
      var k :| RowAt(o, rows, k);
      TakenByFields(id, o, rows, k);
      ReadableExactly(id, o, rows, k);
      var p := Taken(o, rows);
      assert p.status == Filled <==> Says(rows, rows[k], Filled);
      assert p.status == p.status;
    } else {
      NoRowFor(o, rows);
    }
  }

  lemma ReconcileFits(costs: CostModel, start: Balance, s: Session, rows: seq<Row>)
    requires Ready(costs, start, s, rows) && CarryQuantity(Midway(costs, s, rows).orders, rows)
    ensures AllClosedFit(s.orders) ==> AllClosedFit(Reconcile(costs, s, rows).0.orders)
    ensures AllFilledFit(s.orders) ==> AllFilledFit(Reconcile(costs, s, rows).0.orders)
  {
    forall id | id in Visible(Reconcile(costs, s, rows).0.orders)
      ensures id in Visible(s.orders)
      ensures var p := Reconcile(costs, s, rows).0.orders[id];
              && (AllClosedFit(s.orders) ==> ClosedFits(p))
              && (AllFilledFit(s.orders) ==> (p.status.Filled? <==> p.filledQty == p.intent.qty))
    {
      OrderFits(costs, start, s, rows, id);
    }
  }

  lemma OrderFits(costs: CostModel, start: Balance, s: Session, rows: seq<Row>, id: nat)
    requires Ready(costs, start, s, rows) && CarryQuantity(Midway(costs, s, rows).orders, rows)
    requires id in Visible(Reconcile(costs, s, rows).0.orders)
    ensures id in Visible(s.orders)
    ensures var o, p := s.orders[id], Reconcile(costs, s, rows).0.orders[id];
            && (ClosedFits(o) ==> ClosedFits(p))
            && ((o.status.Filled? <==> o.filledQty == o.intent.qty) ==> (p.status.Filled? <==> p.filledQty == p.intent.qty))
  {
    var mid := Midway(costs, s, rows).orders;
    assert Shape(Midway(costs, s, rows)) by { MidwayIsReady(costs, start, s, rows); }
    ReconcileTakes(costs, start, s, rows);
    TakenRejects(s.orders, rows, s.seqNo, id);
    assert OrderOk(id, mid[id]);
    if Reached(mid, rows, id) {
      TakenFits(id, mid[id], rows);
    }
  }

  lemma ActionFits(costs: CostModel, s: Session, a: Action)
    requires Shape(s) && MayOperate(costs, s, Do(a))
    ensures AllClosedFit(s.orders) ==> AllClosedFit(Next(costs, s, a).orders)
    ensures AllFilledFit(s.orders) ==> AllFilledFit(Next(costs, s, a).orders)
  {
    forall id | id in Visible(Next(costs, s, a).orders)
      ensures AllClosedFit(s.orders) ==> ClosedFits(Next(costs, s, a).orders[id])
      ensures AllFilledFit(s.orders) ==>
                var o := Next(costs, s, a).orders[id]; o.status.Filled? <==> o.filledQty == o.intent.qty
    {
      if id in s.orders {
        assert OrderOk(id, s.orders[id]) && id in Visible(s.orders);
      }
    }
  }

  lemma RestartFits(r: Session, x: Session)
    requires Continues(r, x)
    ensures AllClosedFit(x.orders) ==> AllClosedFit(r.orders)
    ensures AllFilledFit(x.orders) ==> AllFilledFit(r.orders)
  {
    assert forall id :: id in Visible(r.orders) ==> id in Visible(x.orders) && RestoredAs(r.orders[id], x.orders[id]);
  }

  lemma ShadowFits(t: Session, s: Session)
    requires Shadows(t, s)
    ensures AllClosedFit(s.orders) <==> AllClosedFit(t.orders)
    ensures AllFilledFit(s.orders) <==> AllFilledFit(t.orders)
  {
    assert forall id :: id in s.orders ==> Aside(t.orders[id], s.orders[id]);
    assert forall id :: id in Visible(s.orders) <==> id in Visible(t.orders);
  }

  lemma CutFits(costs: CostModel, start: Balance, s: Session, rows: seq<Row>, n: nat)
    requires SoundCosts(costs) && Kept(costs, start, s) && NoPending(s.orders) && GoodSnapshot(rows) && CutRestarts(costs, s, rows, n)
    requires CarryQuantity(Midway(costs, s, rows).orders, rows) && AllClosedFit(s.orders)
    ensures AllClosedFit(CutResumed(costs, s, rows, n).orders)
  {
    var c, a, run := ReadableCut(costs, start, s, rows, n);
    CutStateFits(costs, start, s, rows, c, a);
    var x := Trail(Recorded(s), s, a);
    TrailShadows(Recorded(s), s, a);
    ShadowFits(x, a);
    CrashInv(costs, start, x);
    RestartFits(CutResumed(costs, s, rows, n), x);
  }

  lemma CutStateFits(costs: CostModel, start: Balance, s: Session, rows: seq<Row>, c: Cut, a: Session)
    requires Ready(costs, start, s, rows) && CutState(costs, s, rows, c, a)
    requires CarryQuantity(Midway(costs, s, rows).orders, rows) && AllClosedFit(s.orders)
    ensures AllClosedFit(a.orders)
  {
    if c.InAdoption? {
      LoopDecidesAtOnce(costs, s, rows, c.turn);
      AdoptedFits(s.orders, rows, c.turn);
    } else {
      var k := CutTurns(costs, start, s, rows, c, a);
      MidwayIsReady(costs, start, s, rows);
      AdoptedFits(s.orders, rows, s.seqNo);
      SecondLoopFits(Midway(costs, s, rows), rows, a.orders, k);
    }
  }

  lemma SecondLoopFits(mid: Session, rows: seq<Row>, a: Orders, k: nat)
    requires Shape(mid) && GoodSnapshot(rows) && CarryQuantity(mid.orders, rows) && AllClosedFit(mid.orders)
    requires CutOrders(mid.orders, rows, a, k)
    ensures AllClosedFit(a)
  {
    forall id | id in Visible(a)
      ensures ClosedFits(a[id])
    {
      var o := mid.orders[id];
      assert OrderOk(id, o) && o.reject == a[id].reject && id in Visible(mid.orders);
      if id <= k {
        assert Readable(o, rows);
        TakenFits(id, o, rows);
      }
    }
  }

  lemma AdoptedFits(orders: Orders, rows: seq<Row>, n: nat)
    requires AllClosedFit(orders)
    ensures AllClosedFit(Adopted(orders, rows, n))
  {
    assert forall id :: id in Visible(Adopted(orders, rows, n)) ==> id in Visible(orders);
  }

  /** The i-th operation begins no reconcile, or the rows its orders get carry their quantities. */
  predicate CarriesAt(costs: CostModel, first: Session, ops: seq<Operation>, i: nat)
    requires i < |ops|
  {
    ListOf(ops[i]).Some? ==>
      var s, rows := At(costs, first, ops, i), ListOf(ops[i]).value;
      CarryQuantity(Midway(costs, s, rows).orders, rows)
  }

  lemma OperationFits(costs: CostModel, start: Balance, s: Session, op: Operation)
    requires SoundCosts(costs) && Kept(costs, start, s) && MayOperate(costs, s, op)
    requires ListOf(op).Some? ==> CarryQuantity(Midway(costs, s, ListOf(op).value).orders, ListOf(op).value)
    ensures AllClosedFit(s.orders) ==> AllClosedFit(Operate(costs, s, op).orders)
    ensures AllFilledFit(s.orders) && !op.FallIn? ==> AllFilledFit(Operate(costs, s, op).orders)
  {
    match op
    case Do(a) => ActionFits(costs, s, a);
    case DoReconcile(rows) => ReconcileFits(costs, start, s, rows);
    case Fall =>
      LegibleRestarts(costs, start, s);
      RecordedShadows(s);
      ShadowFits(Recorded(s), s);
      RestartFits(Operate(costs, s, op), Recorded(s));
    case FallIn(rows, n) =>
      if AllClosedFit(s.orders) {
        CutFits(costs, start, s, rows, n);
      }
  }

  lemma FirstFits(costs: CostModel, first: Session, ops: seq<Operation>)
    requires Initial(first)
    ensures AllClosedFit(At(costs, first, ops, 0).orders) && AllFilledFit(At(costs, first, ops, 0).orders)
  {
    FirstMoment(costs, first, ops);
  }

  /** FILLED MEANS FULL. On every working day whose rows carry their orders' quantities: at every moment a filled order has
      its whole quantity and any other closed order less; and if no reconcile was cut by a crash, an order that was sent is
      filled if and only if it has its whole quantity. */
  lemma {:induction false} FilledIsFull(costs: CostModel, first: Session, ops: seq<Operation>, i: nat)
    requires Working(costs, first, ops) && i <= |ops| && forall j :: 0 <= j < i ==> CarriesAt(costs, first, ops, j)
    ensures AllClosedFit(At(costs, first, ops, i).orders)
    ensures (forall j :: 0 <= j < i ==> !ops[j].FallIn?) ==> AllFilledFit(At(costs, first, ops, i).orders)
  {
    if i == 0 {
      FirstFits(costs, first, ops);
    } else {
      FilledIsFull(costs, first, ops, i - 1);
      NextMoment(costs, first, ops, i - 1);
      assert CarriesAt(costs, first, ops, i - 1);
      OperationFits(costs, first.ledger, At(costs, first, ops, i - 1), ops[i - 1]);
    }
  }
}
