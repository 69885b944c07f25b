/** A reconcile of any list, cut after any of its records, restored and rerun: what the records describe may lag behind
    memory in amounts, before the reconcile and because of it, and the rerun catches up exactly with the orders it still
    looks at. */
module CatchingUp {
  import opened Contracts
  import opened Accounting
  import opened Recovery
  import opened Sessions
  import opened Invariants
  import opened Reconciling
  import opened Adoption
  import opened ExactlyOnce
  import opened Restating
  import opened RestartedReconcile
  import opened Operations

  // ---------------------------------------------------------------- the second loop catches up

  /** An order as the records describe it lags behind memory in its amount, and its row shows it the amount again. */
  predicate Behind(o: Order, p: Order, rows: seq<Row>) {
    Aside(o, p) && Readable(p, rows) && RowFor(p, rows).Some? && RowFor(p, rows).value.filledQty == p.filledQty
  }

  /** And the loop will come to it. */
  predicate LagsAt(o: Order, orders: Orders, rows: seq<Row>, id: nat)
    requires id in orders
  {
    Behind(o, orders[id], rows) && Reached(orders, rows, id)
  }

  predicate Lags(x: Orders, a: Orders, rows: seq<Row>) {
    x.Keys == a.Keys && forall id :: id in a ==> x[id] == a[id] || LagsAt(x[id], a, rows, id)
  }

  /** The second orders up to n and the first from there on. */
  function Level(x: Orders, a: Orders, n: nat): Orders {
    map id | id in a :: if id > n && id in x then x[id] else a[id]
  }

  lemma TurnTouchesOne(costs: CostModel, s: Session, rows: seq<Row>, id: nat)
    ensures var t := SyncOne(costs, s, rows, id).0;
            && t.orders.Keys == s.orders.Keys && t.seqNo == s.seqNo
            && forall k :: k in s.orders && k != id ==> t.orders[k] == s.orders[k]
  {
  }

  /** A turn brings an order that lags up to date. */
  lemma TurnMends(costs: CostModel, x: Session, a: Session, rows: seq<Row>, id: nat)
    requires id in x.orders && id in a.orders && x.ledger == a.ledger && Behind(x.orders[id], a.orders[id], rows)
    ensures SyncOne(costs, x, rows, id).1 == SyncOne(costs, a, rows, id).1
    ensures SyncOne(costs, x, rows, id).0.ledger == SyncOne(costs, a, rows, id).0.ledger == a.ledger
    ensures SyncOne(costs, x, rows, id).0.orders[id] == SyncOne(costs, a, rows, id).0.orders[id]
  {
    assert x.orders[id].(filledAmount := 0) == a.orders[id].(filledAmount := 0);
  }

  lemma TurnReads(costs: CostModel, x: Session, a: Session, rows: seq<Row>, id: nat)
    requires id in x.orders && id in a.orders && x.ledger == a.ledger && x.orders[id] == a.orders[id]
    ensures SyncOne(costs, x, rows, id).1 == SyncOne(costs, a, rows, id).1
    ensures SyncOne(costs, x, rows, id).0.ledger == SyncOne(costs, a, rows, id).0.ledger
    ensures SyncOne(costs, x, rows, id).0.orders[id] == SyncOne(costs, a, rows, id).0.orders[id]
  {
    if RowFor(a.orders[id], rows).Some? {
      FillReads(costs, x, a, id, RowFor(a.orders[id], rows).value);
    }
  }

  lemma FillReads(costs: CostModel, x: Session, a: Session, id: nat, row: Row)
    requires id in x.orders && id in a.orders && x.ledger == a.ledger && x.orders[id] == a.orders[id]
    ensures var xs, ys := FillPart(costs, x, id, row), FillPart(costs, a, id, row);
            id in xs.orders && id in ys.orders && xs.ledger == ys.ledger && xs.orders[id] == ys.orders[id]
  {
  }

  lemma TurnLevels(costs: CostModel, x: Session, a: Session, rows: seq<Row>, id: nat)
    requires x.orders.Keys == a.orders.Keys && x.ledger == a.ledger
    requires id in a.orders ==> x.orders[id] == a.orders[id] || Behind(x.orders[id], a.orders[id], rows)
    ensures SyncOne(costs, x, rows, id).1 == SyncOne(costs, a, rows, id).1
    ensures SyncOne(costs, x, rows, id).0.ledger == SyncOne(costs, a, rows, id).0.ledger
    ensures id in a.orders ==> SyncOne(costs, x, rows, id).0.orders[id] == SyncOne(costs, a, rows, id).0.orders[id]
  {
    if id in a.orders {
      if x.orders[id] == a.orders[id] {
        TurnReads(costs, x, a, rows, id);
      } else {
        TurnMends(costs, x, a, rows, id);
      }
    }
  }

  lemma LevelStep(x: Orders, before: Orders, after: Orders, a: Orders, next: Orders, n: nat)
    requires n > 0 && x.Keys == a.Keys == before.Keys == after.Keys == next.Keys && before == Level(x, a, n - 1)
    requires forall id :: id in a && id != n ==> after[id] == before[id] && next[id] == a[id]
    requires n in a ==> after[n] == next[n]
    ensures after == Level(x, next, n)
  {
  }

  lemma LevelStart(x: Orders, a: Session)
    requires x.Keys == a.orders.Keys && Shape(a)
    ensures Level(x, a.orders, 0) == x
  {
    assert forall id :: id in a.orders ==> id > 0;
  }

  lemma LevelIdle(x: Orders, before: Orders, a: Orders, n: nat)
    requires n > 0 && x.Keys == a.Keys && before == Level(x, a, n - 1) && (n in a ==> x[n] == a[n])
    ensures before == Level(x, a, n)
  {
  }

  lemma LevelTurn(costs: CostModel, x: Orders, xs: Session, a: Session, rows: seq<Row>, n: nat)
    requires n > 0 && x.Keys == a.orders.Keys && xs.orders == Level(x, a.orders, n - 1) && xs.ledger == a.ledger
    requires n in a.orders ==> x[n] == a.orders[n] || Behind(x[n], a.orders[n], rows)
    ensures SyncOne(costs, xs, rows, n).1 == SyncOne(costs, a, rows, n).1
    ensures SyncOne(costs, xs, rows, n).0.ledger == SyncOne(costs, a, rows, n).0.ledger
    ensures SyncOne(costs, xs, rows, n).0.orders == Level(x, SyncOne(costs, a, rows, n).0.orders, n)
  {
    TurnTouchesOne(costs, xs, rows, n);
    TurnTouchesOne(costs, a, rows, n);
    TurnLevels(costs, xs, a, rows, n);
    LevelStep(x, xs.orders, SyncOne(costs, xs, rows, n).0.orders, a.orders, SyncOne(costs, a, rows, n).0.orders, n);
  }

  /** Run from both, the second loop ends with the orders, ledger and error of the one that is up to date. */
  lemma {:induction false} CatchUp(costs: CostModel, start: Balance, x: Session, a: Session, rows: seq<Row>, n: nat)
    requires Ready(costs, start, a, rows) && Lags(x.orders, a.orders, rows) && x.ledger == a.ledger
    ensures SyncTo(costs, x, rows, n).1 == SyncTo(costs, a, rows, n).1
    ensures SyncTo(costs, x, rows, n).0.ledger == SyncTo(costs, a, rows, n).0.ledger
    ensures SyncTo(costs, x, rows, n).0.orders == Level(x.orders, SyncTo(costs, a, rows, n).0.orders, n)
  {
    if n == 0 {
      LevelStart(x.orders, a);
    } else {
      CatchUp(costs, start, x, a, rows, n - 1);
      var (xs, _) := SyncTo(costs, x, rows, n - 1);
      var (before, err) := SyncTo(costs, a, rows, n - 1);
      assert before.orders.Keys == a.orders.Keys && (n in a.orders ==> before.orders[n] == a.orders[n]) by {
        SyncToKeeps(costs, start, a, rows, n - 1);
      }
      if err.Some? {
        NoneLagsBeyond(costs, start, x, a, rows, n);
        LevelIdle(x.orders, xs.orders, before.orders, n);
      } else {
        LevelTurn(costs, x.orders, xs, before, rows, n);
      }
    }
  }

  lemma NoneLagsBeyond(costs: CostModel, start: Balance, x: Session, a: Session, rows: seq<Row>, n: nat)
    requires Ready(costs, start, a, rows) && Lags(x.orders, a.orders, rows) && SyncTo(costs, a, rows, n).1.Some?
    ensures n in a.orders ==> x.orders[n] == a.orders[n]
  {
    SyncDecidesAtOnce(costs, start, a, rows, n);
  }

  lemma {:induction false} SyncKeepsSeq(costs: CostModel, s: Session, rows: seq<Row>, n: nat)
    ensures SyncTo(costs, s, rows, n).0.seqNo == s.seqNo
  {
    if n > 0 {
      SyncKeepsSeq(costs, s, rows, n - 1);
      TurnTouchesOne(costs, SyncTo(costs, s, rows, n - 1).0, rows, n);
    }
  }

  lemma CaughtUp(costs: CostModel, start: Balance, x: Session, a: Session, rows: seq<Row>)
    requires Ready(costs, start, a, rows) && Lags(x.orders, a.orders, rows) && x.ledger == a.ledger && x.seqNo == a.seqNo
    ensures SameCore(SyncTo(costs, x, rows, a.seqNo).0, SyncTo(costs, a, rows, a.seqNo).0)
    ensures SyncTo(costs, x, rows, a.seqNo).1 == SyncTo(costs, a, rows, a.seqNo).1
  {
    CatchUp(costs, start, x, a, rows, a.seqNo);
    SyncToKeeps(costs, start, a, rows, a.seqNo);
    SyncKeepsSeq(costs, x, rows, a.seqNo);
    var after := SyncTo(costs, a, rows, a.seqNo).0.orders;
    assert Level(x.orders, after, a.seqNo) == after;
  }

  // ---------------------------------------------------------------- lists a rerun recovers from

  /** Every order whose amount is not on record is shown it again. */
  predicate CatchesUp(s: Session, rows: seq<Row>) {
    var mid := Adopted(s.orders, rows, s.seqNo);
    forall id :: id in mid && Recorded(s).orders[id].filledAmount != s.orders[id].filledAmount ==>
      Reached(mid, rows, id) && RowFor(mid[id], rows).Some?
  }

  /** The list closes the order, without bringing it a fill, at another amount than the given one. */
  predicate ClosedOff(orders: Orders, rows: seq<Row>, id: nat, amount: int)
    requires id in orders
  {
    && Reached(orders, rows, id) && RowFor(orders[id], rows).Some?
    && RowFor(orders[id], rows).value.filledQty == orders[id].filledQty
    && RowFor(orders[id], rows).value.filledAmount != amount && Taken(orders[id], rows).Terminal()
  }

  /** No order is closed, without a fill, at another amount than the recorded one. */
  predicate Lossless(s: Session, rows: seq<Row>) {
    var mid := Adopted(s.orders, rows, s.seqNo);
    forall id :: id in mid ==> !ClosedOff(mid, rows, id, Recorded(s).orders[id].filledAmount)
  }

  /** The three conditions for one order, as recorded and in memory. */
  predicate Mends(t: Order, s: Order, mid: Orders, rows: seq<Row>, id: nat)
    requires id in mid
  {
    && (Reached(mid, rows, id) && RowFor(mid[id], rows).Some? && RowFor(mid[id], rows).value.filledQty > mid[id].filledQty ==>
          t.filledAmount == s.filledAmount)
    && (t.filledAmount != s.filledAmount ==> Reached(mid, rows, id) && RowFor(mid[id], rows).Some?)
    && !ClosedOff(mid, rows, id, t.filledAmount)
  }

  lemma ListMends(s: Session, rows: seq<Row>)
    requires Shape(s) && FillsFit(s, rows) && CatchesUp(s, rows) && Lossless(s, rows)
    ensures forall id :: id in s.orders ==>
              Mends(Recorded(s).orders[id], s.orders[id], Adopted(s.orders, rows, s.seqNo), rows, id)
  {
    var mid := Adopted(s.orders, rows, s.seqNo);
    forall id | id in s.orders
      ensures Mends(Recorded(s).orders[id], s.orders[id], mid, rows, id)
    {
      assert id in mid && id <= s.seqNo;
      assert !ClosedOff(mid, rows, id, Recorded(s).orders[id].filledAmount);
    }
  }

  // ---------------------------------------------------------------- what the records describe at a cut

  /** A fill was booked and the status has still to follow. */
  predicate HalfTaken(o: Order, p: Order, rows: seq<Row>) {
    RowFor(o, rows).Some? && RowFor(o, rows).value.filledQty > o.filledQty && p == WithFill(o, RowFor(o, rows).value)
  }

  /** The orders of a cut in the second loop: k of them have had their turn. */
  ghost predicate CutOrders(mid: Orders, rows: seq<Row>, a: Orders, k: nat) {
    && a.Keys == mid.Keys && Reached(mid, rows, k) && SettledTo(a, rows, k)
    && (forall id :: id in mid && id <= k ==> a[id] == Taken(mid[id], rows))
    && (forall id :: id in mid && id > k ==> a[id] == mid[id] || HalfTaken(mid[id], a[id], rows))
  }

  lemma BetweenTurnsOrders(costs: CostModel, start: Balance, mid: Session, rows: seq<Row>, a: Session, k: nat)
    requires Ready(costs, start, mid, rows) && SyncTo(costs, mid, rows, k).1.None? && SameCore(a, SyncTo(costs, mid, rows, k).0)
    ensures CutOrders(mid.orders, rows, a.orders, k)
  {
    SyncDecidesAtOnce(costs, start, mid, rows, k);
    SyncToSettles(costs, start, mid, rows, k);
  }

  lemma InTurnOrders(costs: CostModel, start: Balance, mid: Session, rows: seq<Row>, a: Session, k: nat)
    requires Ready(costs, start, mid, rows) && CutInTurn(costs, mid, rows, a, k)
    ensures CutOrders(mid.orders, rows, a.orders, k - 1)
  {
    var t := SyncTo(costs, mid, rows, k - 1).0;
    SyncToUnfolds(costs, mid, rows, k);
    assert CutOrders(mid.orders, rows, t.orders, k - 1) by { BetweenTurnsOrders(costs, start, mid, rows, t, k - 1); }
    assert t.orders[k] == mid.orders[k] by { SyncToKeeps(costs, start, mid, rows, k - 1); }
    var row := RowFor(t.orders[k], rows).value;
    assert a.orders == t.orders[k := WithFill(t.orders[k], row)] by {
      TurnBegins(costs, start, mid, rows, k);
      SyncRowQuiet(costs, t, rows, k);
      FillPartOrders(costs, t, rows, k, row);
    }
    HalfTurnOrders(mid.orders, rows, t.orders, k);
  }

  lemma HalfTurnOrders(mid: Orders, rows: seq<Row>, t: Orders, k: nat)
    requires k > 0 && CutOrders(mid, rows, t, k - 1) && k in t && t[k] == mid[k] && RowFor(t[k], rows).Some?
    requires RowFor(t[k], rows).value.filledQty > t[k].filledQty
    ensures CutOrders(mid, rows, t[k := WithFill(t[k], RowFor(t[k], rows).value)], k - 1)
  {
  }

  /** The orders of a cut, wherever it is: after the first loop, and then with some turns of the second behind them. */
  lemma CutTurns(costs: CostModel, start: Balance, s: Session, rows: seq<Row>, c: Cut, a: Session) returns (k: nat)
    requires Ready(costs, start, s, rows) && CutState(costs, s, rows, c, a) && !c.InAdoption?
    ensures k <= c.turn <= s.seqNo && CutOrders(Midway(costs, s, rows).orders, rows, a.orders, k)
    ensures Progressed(a.orders, Midway(costs, s, rows).orders)
  {
    var mid := Midway(costs, s, rows);
    assert Ready(costs, start, mid, rows) by { MidwayIsReady(costs, start, s, rows); }
    if c.BetweenTurns? {
      k := c.turn;
      SyncToSettles(costs, start, mid, rows, k);
      BetweenTurnsOrders(costs, start, mid, rows, a, k);
    } else {
      k := c.turn - 1;
      CutInTurnProgress(costs, start, mid, rows, a, c.turn);
      InTurnOrders(costs, start, mid, rows, a, c.turn);
    }
  }

  lemma SettledReadable(o: Order, rows: seq<Row>)
    requires Settled(o, rows)
    ensures Readable(o, rows)
  {
  }

  lemma CutReached(mid: Orders, rows: seq<Row>, a: Orders, k: nat, id: nat)
    requires CutOrders(mid, rows, a, k) && (id <= k || Reached(mid, rows, id)) && forall j :: j in mid ==> j > 0
    ensures Reached(a, rows, id)
  {
    forall j | j in a && j <= id
      ensures Readable(a[j], rows)
    {
      if j <= k {
        SettledReadable(a[j], rows);
      } else {
        assert Readable(mid[j], rows);
      }
    }
  }

  /** What the records describe of an order at a cut is its memory, or lags behind it and will be caught up with. */
  lemma CutLagsAt(t: Session, s: Session, a: Session, mid: Orders, rows: seq<Row>, k: nat, id: nat)
    requires CutOrders(mid, rows, a.orders, k) && (forall j :: j in mid ==> j > 0) && id in mid && id in s.orders && id in t.orders
    requires mid[id].filledQty == s.orders[id].filledQty && mid[id].filledAmount == s.orders[id].filledAmount
    requires Mends(t.orders[id], s.orders[id], mid, rows, id)
    ensures var x := Trail(t, s, a).orders; x[id] == a.orders[id] || LagsAt(x[id], a.orders, rows, id)
  {
    var o, p := Trail(t, s, a).orders[id], a.orders[id];
    if o != p {
      CutReached(mid, rows, a.orders, k, id);
      if id <= k {
        assert Settled(p, rows);
        TakenLags(t.orders[id].filledAmount, s.orders[id], mid, rows, id);
      }
    }
  }

  lemma TakenLags(amount: int, s: Order, mid: Orders, rows: seq<Row>, id: nat)
    requires id in mid && Reached(mid, rows, id) && !ClosedOff(mid, rows, id, amount)
    requires mid[id].filledQty == s.filledQty && mid[id].filledAmount == s.filledAmount
    requires amount != s.filledAmount ==> RowFor(mid[id], rows).Some?
    requires Taken(mid[id], rows).filledQty == s.filledQty && Taken(mid[id], rows).filledAmount != amount
    ensures RowFor(Taken(mid[id], rows), rows).Some?
  {
  }

  lemma CutLags(t: Session, s: Session, a: Session, mid: Orders, rows: seq<Row>, k: nat)
    requires CutOrders(mid, rows, a.orders, k) && (forall j :: j in mid ==> j > 0) && mid.Keys == s.orders.Keys == t.orders.Keys
    requires forall id :: id in mid ==> mid[id].filledQty == s.orders[id].filledQty && mid[id].filledAmount == s.orders[id].filledAmount
    requires forall id :: id in s.orders ==> Mends(t.orders[id], s.orders[id], mid, rows, id)
    ensures Lags(Trail(t, s, a).orders, a.orders, rows)
  {
    forall id | id in a.orders
      ensures Trail(t, s, a).orders[id] == a.orders[id] || LagsAt(Trail(t, s, a).orders[id], a.orders, rows, id)
    {
      CutLagsAt(t, s, a, mid, rows, k, id);
    }
  }

  // ---------------------------------------------------------------- the whole reconcile catches up

  /** Two sessions the first loop leaves alone. */
  lemma RerunsAgree(costs: CostModel, x: Session, a: Session, rows: seq<Row>)
    requires SameCore(Midway(costs, x, rows), x) && SameCore(Midway(costs, a, rows), a) && x.seqNo == a.seqNo
    requires SameCore(SyncTo(costs, x, rows, a.seqNo).0, SyncTo(costs, a, rows, a.seqNo).0)
    requires SyncTo(costs, x, rows, a.seqNo).1 == SyncTo(costs, a, rows, a.seqNo).1
    ensures SameCore(Reconcile(costs, x, rows).0, Reconcile(costs, a, rows).0)
    ensures Reconcile(costs, x, rows).1 == Reconcile(costs, a, rows).1
  {
    SameTail(costs, Midway(costs, x, rows), x, rows, 0, a.seqNo);
    SameTail(costs, Midway(costs, a, rows), a, rows, 0, a.seqNo);
  }

  lemma TrailProgressed(t: Session, s: Session, a: Session, mid: Orders)
    requires Progressed(a.orders, mid)
    ensures Progressed(Trail(t, s, a).orders, mid)
  {
  }

  lemma TrailUnsure(t: Session, s: Session, a: Session)
    requires OneUnsurePerKey(a.orders)
    ensures OneUnsurePerKey(Trail(t, s, a).orders)
  {
  }

  /** The list mends every order of a session, given as recorded and in memory. */
  ghost predicate Mended(costs: CostModel, t: Session, s: Session, rows: seq<Row>) {
    && t.orders.Keys == s.orders.Keys == Midway(costs, s, rows).orders.Keys
    && forall id :: id in s.orders ==> Mends(t.orders[id], s.orders[id], Midway(costs, s, rows).orders, rows, id)
  }

  lemma SecondLoopLags(costs: CostModel, start: Balance, t: Session, s: Session, rows: seq<Row>, a: Session, k: nat)
    requires Ready(costs, start, s, rows) && Mended(costs, t, s, rows) && CutOrders(Midway(costs, s, rows).orders, rows, a.orders, k)
    ensures Lags(Trail(t, s, a).orders, a.orders, rows)
  {
    var mid := Midway(costs, s, rows);
    assert forall j :: j in mid.orders ==> j > 0 by { MidwayIsReady(costs, start, s, rows); }
    AdoptKeepsFills(costs, s, rows, s.seqNo);
    CutLags(t, s, a, mid.orders, rows, k);
  }

  /** A cut in the second loop: the rerun of what the records describe ends like the rerun of memory. */
  lemma SecondLoopRerun(costs: CostModel, start: Balance, t: Session, s: Session, rows: seq<Row>, a: Session, k: nat)
    requires Ready(costs, start, s, rows) && Repeatable(s.orders, rows) && Mended(costs, t, s, rows)
    requires Ready(costs, start, a, rows) && a.seqNo == s.seqNo
    requires Progressed(a.orders, Midway(costs, s, rows).orders) && CutOrders(Midway(costs, s, rows).orders, rows, a.orders, k)
    ensures SameCore(Reconcile(costs, Trail(t, s, a), rows).0, Reconcile(costs, a, rows).0)
    ensures Reconcile(costs, Trail(t, s, a), rows).1 == Reconcile(costs, a, rows).1
  {
    var x, mid := Trail(t, s, a), Midway(costs, s, rows);
    AgainFromProgress(costs, start, s, rows, a);
    TrailProgressed(t, s, a, mid.orders);
    TrailUnsure(t, s, a);
    AgainFromProgress(costs, start, s, rows, x);
    SecondLoopLags(costs, start, t, s, rows, a, k);
    CaughtUp(costs, start, x, a, rows);
    RerunsAgree(costs, x, a, rows);
  }

  /** Before the second loop everything that lags is caught up with. */
  lemma MidwayLags(costs: CostModel, start: Balance, t: Session, s: Session, rows: seq<Row>)
    requires Ready(costs, start, s, rows) && Shadows(t, s) && Mended(costs, t, s, rows)
    ensures Lags(Midway(costs, t, rows).orders, Midway(costs, s, rows).orders, rows)
  {
    var mid := Midway(costs, s, rows);
    MidwayIsReady(costs, start, s, rows);
    assert CutOrders(mid.orders, rows, mid.orders, 0);
    SecondLoopLags(costs, start, t, s, rows, mid, 0);
    AdoptionTrail(costs, t, s, rows, s.seqNo);
  }

  lemma RepeatableReads(t: Session, s: Session, rows: seq<Row>)
    requires Shadows(t, s) && Repeatable(s.orders, rows)
    ensures Repeatable(t.orders, rows)
  {
    ShadowKnown(t, s);
    forall id | id in s.orders
      ensures Candidates(t.orders[id], rows, Known(s.orders)) == Candidates(s.orders[id], rows, Known(s.orders))
    {
      CandidatesReadIntent(t.orders[id], s.orders[id], rows, Known(s.orders));
    }
  }

  /** A cut in the first loop. */
  lemma FirstLoopRerun(costs: CostModel, start: Balance, t: Session, s: Session, rows: seq<Row>, a: Session, k: nat)
    requires Ready(costs, start, s, rows) && Ready(costs, start, t, rows) && Shadows(t, s)
    requires Repeatable(s.orders, rows) && Mended(costs, t, s, rows) && k <= s.seqNo && SameCore(a, AdoptTo(costs, s, rows, k).0)
    requires a.seqNo == s.seqNo
    ensures SameCore(Reconcile(costs, Trail(t, s, a), rows).0, Reconcile(costs, s, rows).0)
    ensures Reconcile(costs, Trail(t, s, a), rows).1 == Reconcile(costs, s, rows).1
  {
    AdoptionAgain(costs, start, t, s, rows, a, k);
    RecordRerun(costs, start, t, s, rows);
    SameTail(costs, Midway(costs, Trail(t, s, a), rows), Midway(costs, t, rows), rows, 0, s.seqNo);
  }

  lemma AdoptionAgain(costs: CostModel, start: Balance, t: Session, s: Session, rows: seq<Row>, a: Session, k: nat)
    requires Ready(costs, start, t, rows) && Shadows(t, s) && Repeatable(s.orders, rows)
    requires k <= s.seqNo && SameCore(a, AdoptTo(costs, s, rows, k).0) && a.seqNo == s.seqNo
    ensures SameCore(Midway(costs, Trail(t, s, a), rows), Midway(costs, t, rows))
  {
    RepeatableReads(t, s, rows);
    AdoptionTrail(costs, t, s, rows, k);
    TrailCore(t, s, a, AdoptTo(costs, s, rows, k).0);
    AgainFromAdoption(costs, start, t, rows, k, Trail(t, s, a));
  }

  /** The second loop ends the same from what the records describe and from memory. */
  lemma RecordRerun(costs: CostModel, start: Balance, t: Session, s: Session, rows: seq<Row>)
    requires Ready(costs, start, s, rows) && Shadows(t, s) && Mended(costs, t, s, rows)
    ensures SameCore(Reconcile(costs, t, rows).0, Reconcile(costs, s, rows).0)
    ensures Reconcile(costs, t, rows).1 == Reconcile(costs, s, rows).1
  {
    MidwayIsReady(costs, start, s, rows);
    AdoptToShadowed(costs, t, s, rows, s.seqNo);
    MidwayLags(costs, start, t, s, rows);
    CaughtUp(costs, start, Midway(costs, t, rows), Midway(costs, s, rows), rows);
  }

  lemma TrailCore(t: Session, s: Session, a: Session, b: Session)
    requires SameCore(a, b)
    ensures SameCore(Trail(t, s, a), Trail(t, s, b))
  {
  }

  lemma CutRerun(costs: CostModel, start: Balance, t: Session, s: Session, rows: seq<Row>, c: Cut, a: Session)
    requires Ready(costs, start, s, rows) && Ready(costs, start, t, rows) && Shadows(t, s)
    requires Repeatable(s.orders, rows) && Mended(costs, t, s, rows)
    requires CutState(costs, s, rows, c, a) && Ready(costs, start, a, rows)
    ensures SameCore(Reconcile(costs, Trail(t, s, a), rows).0, Reconcile(costs, s, rows).0)
    ensures Reconcile(costs, Trail(t, s, a), rows).1 == Reconcile(costs, s, rows).1
  {
    if c.InAdoption? {
      assert a.seqNo == s.seqNo by { AdoptToLawful(costs, start, s, rows, c.turn); }
      FirstLoopRerun(costs, start, t, s, rows, a, c.turn);
    } else {
      ReconcileAgain(costs, start, s, rows, c, a);
      var k := CutTurns(costs, start, s, rows, c, a);
      CutKeepsSeq(costs, start, s, rows, c, a);
      SecondLoopRerun(costs, start, t, s, rows, a, k);
    }
  }

  lemma CutKeepsSeq(costs: CostModel, start: Balance, s: Session, rows: seq<Row>, c: Cut, a: Session)
    requires Ready(costs, start, s, rows) && CutState(costs, s, rows, c, a) && !c.InAdoption?
    ensures a.seqNo == s.seqNo
  {
    var mid := Midway(costs, s, rows);
    MidwayIsReady(costs, start, s, rows);
    if c.BetweenTurns? {
      SyncToKeeps(costs, start, mid, rows, c.turn);
    } else {
      CutInTurnProgress(costs, start, mid, rows, a, c.turn);
    }
  }

  /** Where every fill fits, every journal of the reconcile can be read. */
  lemma FittingCutReadable(costs: CostModel, start: Balance, s: Session, rows: seq<Row>, n: nat)
    requires Ready(costs, start, s, rows) && Kept(costs, start, s) && Legible(s) && FillsFit(s, rows)
    requires |s.journal| <= n <= |Reconcile(costs, s, rows).0.journal|
    ensures ReplayOrders(Reconcile(costs, s, rows).0.journal[..n]).Success?
  {
    ReconcileKept(costs, start, s, rows);
    var full := Reconcile(costs, s, rows).0.journal;
    if ReplayOrders(full[..n]).Failure? {
      StaysUnreadable(full[..n], full);
    }
  }

  /** EXACTLY ONCE. Cut a reconcile after any of its journal records (n of them in the file), restore from those records,
      and reconcile the same snapshot: orders, ledger and any error are those of the uninterrupted reconcile. */
  lemma CutRestoreReconcile(costs: CostModel, start: Balance, s: Session, rows: seq<Row>, n: nat)
    requires Ready(costs, start, s, rows) && Kept(costs, start, s) && Legible(s) && OneClock(s)
    requires Repeatable(s.orders, rows) && FillsFit(s, rows) && CatchesUp(s, rows) && Lossless(s, rows)
    requires |s.journal| <= n <= |Reconcile(costs, s, rows).0.journal|
    ensures SameAfterCut(costs, s, rows, n)
  {
    var c, a := CutOnRecord(costs, start, s, rows, n);
    RecordedReady(costs, start, s, rows);
    ListIsMended(costs, start, s, rows);
    CutRerun(costs, start, Recorded(s), s, rows, c, a);
    RerunSeen(costs, start, Trail(Recorded(s), s, a), s, rows, n);
  }

  lemma RecordedReady(costs: CostModel, start: Balance, s: Session, rows: seq<Row>)
    requires Ready(costs, start, s, rows) && Kept(costs, start, s) && Legible(s)
    ensures Ready(costs, start, Recorded(s), rows) && Shadows(Recorded(s), s)
  {
    RecordedShadows(s);
    assert forall id :: id in s.orders ==> Aside(Recorded(s).orders[id], s.orders[id]);
  }

  /** What the records describe at a cut, and that a restart there gives it back. */
  lemma CutOnRecord(costs: CostModel, start: Balance, s: Session, rows: seq<Row>, n: nat) returns (c: Cut, a: Session)
    requires Ready(costs, start, s, rows) && Kept(costs, start, s) && Legible(s) && OneClock(s) && FillsFit(s, rows)
    requires |s.journal| <= n <= |Reconcile(costs, s, rows).0.journal|
    ensures CutState(costs, s, rows, c, a) && Ready(costs, start, a, rows)
    ensures a.journal == Reconcile(costs, s, rows).0.journal[..n]
    ensures Inv(costs, start, Trail(Recorded(s), s, a)) && Restarts(costs, start, Trail(Recorded(s), s, a))
  {
    FittingCutReadable(costs, start, s, rows, n);
    var run;
    c, a, run := ReadableCut(costs, start, s, rows, n);
    RestartAtCut(costs, start, Recorded(s), s, rows, n, c, a);
  }

  lemma ListIsMended(costs: CostModel, start: Balance, s: Session, rows: seq<Row>)
    requires Ready(costs, start, s, rows) && FillsFit(s, rows) && CatchesUp(s, rows) && Lossless(s, rows)
    ensures Mended(costs, Recorded(s), s, rows)
  {
    ListMends(s, rows);
    MidwayIsReady(costs, start, s, rows);
  }

  /** If the rerun of what the records describe ends like the uninterrupted reconcile, so does the restarted one. */
  lemma RerunSeen(costs: CostModel, start: Balance, x: Session, s: Session, rows: seq<Row>, n: nat)
    requires Restarts(costs, start, x) && Inv(costs, start, x) && DistinctRows(rows) && n <= |Reconcile(costs, s, rows).0.journal|
    requires x.journal == Reconcile(costs, s, rows).0.journal[..n]
    requires SameCore(Reconcile(costs, x, rows).0, Reconcile(costs, s, rows).0)
    requires Reconcile(costs, x, rows).1 == Reconcile(costs, s, rows).1
    ensures SameAfterCut(costs, s, rows, n)
  {
    ReconcileSeen(costs, Resume(costs, x.journal).value, x, rows);
  }

  // ---------------------------------------------------------------- an amount that is lost

  /** The restart after the last record of a reconcile. */
  lemma RestartAtEnd(costs: CostModel, start: Balance, s: Session, rows: seq<Row>)
    requires Ready(costs, start, s, rows) && Kept(costs, start, s) && Legible(s) && OneClock(s) && FillsFit(s, rows)
    ensures Restarts(costs, start, Trail(Recorded(s), s, Reconcile(costs, s, rows).0))
  {
    var after := Reconcile(costs, s, rows).0;
    var x := Trail(Recorded(s), s, after);
    assert Inv(costs, start, x) by { RecordedAfter(costs, start, s, rows); }
    assert SameClocks(s.orders, x.orders) by {
      EndClocks(costs, start, s, rows);
      TrailClocks(Recorded(s), s, after);
    }
    ReconcilePlain(costs, s, rows);
    RestartAt(costs, start, s, x);
  }

  lemma EndClocks(costs: CostModel, start: Balance, s: Session, rows: seq<Row>)
    requires Ready(costs, start, s, rows)
    ensures SameClocks(s.orders, Reconcile(costs, s, rows).0.orders)
  {
    var mid, after := Midway(costs, s, rows), Reconcile(costs, s, rows).0;
    AdoptionClocks(costs, start, s, rows, s.seqNo);
    assert NoPending(after.orders) by { ReconcileLawful(costs, start, s, rows); }
    assert after.orders == TakenTo(mid.orders, rows, s.seqNo) by { ReconcileTakes(costs, start, s, rows); }
    TakenClocks(mid.orders, rows, s.seqNo);
  }

  /** A whole reconcile in closed form. */
  lemma ReconcileTakes(costs: CostModel, start: Balance, s: Session, rows: seq<Row>)
    requires Ready(costs, start, s, rows)
    ensures Midway(costs, s, rows).orders == Adopted(s.orders, rows, s.seqNo)
    ensures Reconcile(costs, s, rows).0.orders == TakenTo(Adopted(s.orders, rows, s.seqNo), rows, s.seqNo)
  {
    MidwayIsReady(costs, start, s, rows);
    SyncDecidesAtOnce(costs, start, Midway(costs, s, rows), rows, s.seqNo);
  }

  lemma TakenClocks(orders: Orders, rows: seq<Row>, n: nat)
    ensures TakenTo(orders, rows, n).Keys == orders.Keys
    ensures forall id :: id in orders ==> TakenTo(orders, rows, n)[id].createdAt == orders[id].createdAt
  {
  }

  /** A closed order is not looked at. */
  lemma ClosedStays(costs: CostModel, start: Balance, r: Session, rows: seq<Row>, id: nat)
    requires Ready(costs, start, r, rows) && id in r.orders && r.orders[id].Terminal()
    ensures id in Reconcile(costs, r, rows).0.orders && Reconcile(costs, r, rows).0.orders[id] == r.orders[id]
  {
    ReconcileTakes(costs, start, r, rows);
  }

  /** An order closed by a row with another amount, as the records describe it. */
  predicate Lost(x: Session, after: Session, id: nat) {
    && id in x.orders && id in after.orders && Aside(x.orders[id], after.orders[id])
    && x.orders[id].filledAmount != after.orders[id].filledAmount
    && x.orders[id].Terminal() && !after.orders[id].reject.ByGate?
  }

  lemma LostOrder(t: Session, s: Session, after: Session, mid: Orders, rows: seq<Row>, n: nat, id: nat)
    requires after.orders == TakenTo(mid, rows, n) && id in mid && id in s.orders && id in t.orders && id <= n
    requires mid[id].filledQty == s.orders[id].filledQty && OrderOk(id, mid[id])
    requires ClosedOff(mid, rows, id, t.orders[id].filledAmount)
    ensures Lost(Trail(t, s, after), after, id)
  {
    assert after.orders[id] == Taken(mid[id], rows);
  }

  /** An order the list closes off, when it is closed. */
  lemma ClosedOffIsLost(costs: CostModel, start: Balance, s: Session, rows: seq<Row>, id: nat)
    requires Ready(costs, start, s, rows) && id in s.orders
    requires ClosedOff(Adopted(s.orders, rows, s.seqNo), rows, id, Recorded(s).orders[id].filledAmount)
    ensures var after := Reconcile(costs, s, rows).0; Lost(Trail(Recorded(s), s, after), after, id)
  {
    var mid, after := Midway(costs, s, rows), Reconcile(costs, s, rows).0;
    MidwayIsReady(costs, start, s, rows);
    ReconcileTakes(costs, start, s, rows);
    AdoptKeepsFills(costs, s, rows, s.seqNo);
    LostOrder(Recorded(s), s, after, mid.orders, rows, s.seqNo, id);
  }

  /** Restored, such an order has the recorded amount for good. */
  lemma AmountIsLost(costs: CostModel, start: Balance, s: Session, rows: seq<Row>)
    requires Ready(costs, start, s, rows) && Kept(costs, start, s) && Legible(s) && OneClock(s)
    requires FillsFit(s, rows) && !Lossless(s, rows)
    ensures !SameAfterCut(costs, s, rows, |Reconcile(costs, s, rows).0.journal|)
  {
    var after := Reconcile(costs, s, rows).0;
    var x := Trail(Recorded(s), s, after);
    var mid := Adopted(s.orders, rows, s.seqNo);
    var id :| id in mid && ClosedOff(mid, rows, id, Recorded(s).orders[id].filledAmount);
    ClosedOffIsLost(costs, start, s, rows, id);
    RestartAtEnd(costs, start, s, rows);
    assert NoPending(after.orders) by { ReconcileLawful(costs, start, s, rows); }
    TrailShadows(Recorded(s), s, after);
    var r := Resume(costs, after.journal).value;
    ClosedDiffers(costs, start, r, x, after, rows, id);
    CutDiffers(costs, s, rows, after.journal, r);
  }

  lemma ClosedDiffers(costs: CostModel, start: Balance, r: Session, x: Session, after: Session, rows: seq<Row>, id: nat)
    requires SoundCosts(costs) && Inv(costs, start, r) && NoPending(after.orders) && GoodSnapshot(rows)
    requires r.orders == Visible(x.orders) && Shadows(x, after) && Lost(x, after, id)
    ensures Reconcile(costs, r, rows).0.orders != Visible(after.orders)
  {
    ClosedStays(costs, start, r, rows, id);
    assert id in Visible(after.orders);
  }

  // ---------------------------------------------------------------- an amount that is not caught up with

  /** The first order that raises. */
  lemma FirstUnread(orders: Orders, rows: seq<Row>, id: nat) returns (j: nat)
    requires !Reached(orders, rows, id)
    ensures j <= id && j in orders && !Readable(orders[j], rows) && forall i :: i in orders && i < j ==> Readable(orders[i], rows)
  {
    if exists i: nat :: i in orders && i < id && !Readable(orders[i], rows) {
      var i: nat :| i in orders && i < id && !Readable(orders[i], rows);
      assert !Reached(orders, rows, i);
      j := FirstUnread(orders, rows, i);
    } else {
      j := id;
    }
  }

  /** The same orders but for amounts, with no fill on top of different ones. */
  predicate Differ(t: Orders, s: Orders, rows: seq<Row>) {
    && t.Keys == s.Keys
    && forall id :: id in s ==>
         && Aside(t[id], s[id])
         && (t[id] != s[id] && Reached(s, rows, id) && RowFor(s[id], rows).Some? ==>
               RowFor(s[id], rows).value.filledQty <= s[id].filledQty)
  }

  lemma ReadAlike(t: Order, s: Order, rows: seq<Row>)
    requires Aside(t, s) && (t == s || RowFor(s, rows).None? || RowFor(s, rows).value.filledQty <= s.filledQty)
    ensures Readable(t, rows) <==> Readable(s, rows)
  {
  }

  lemma ReachedAlike(t: Orders, s: Orders, rows: seq<Row>, j: nat)
    requires Differ(t, s, rows) && forall i :: i in s && i < j ==> Readable(s[i], rows)
    ensures forall i :: i in t && i < j ==> Readable(t[i], rows)
  {
    forall i | i in t && i < j
      ensures Readable(t[i], rows)
    {
      assert Reached(s, rows, i);
      ReadAlike(t[i], s[i], rows);
    }
  }

  /** An order that differs and is not shown its amount: it, or the order the loop stops at, ends differently. */
  lemma LagShows(t: Orders, s: Orders, rows: seq<Row>, n: nat, id: nat) returns (bad: nat)
    requires Differ(t, s, rows) && (forall i :: i in s ==> i <= n) && id in s && t[id] != s[id]
    requires !Reached(s, rows, id) || RowFor(s[id], rows).None?
    ensures bad in s && t[bad] != s[bad] && TakenTo(t, rows, n)[bad] != TakenTo(s, rows, n)[bad]
  {
    bad := id;
    if RowFor(s[id], rows).Some? {
      var j := FirstUnread(s, rows, id);
      ReachedAlike(t, s, rows, j);
      if Readable(t[j], rows) {
        StopsEarlier(t, s, rows, n, j);
        bad := j;
      } else {
        assert !Reached(t, rows, id);
      }
    }
  }

  lemma StopsEarlier(t: Orders, s: Orders, rows: seq<Row>, n: nat, j: nat)
    requires t.Keys == s.Keys && j in s && j <= n && Aside(t[j], s[j]) && Readable(t[j], rows) && !Readable(s[j], rows)
    requires forall i :: i in t && i < j ==> Readable(t[i], rows)
    ensures t[j] != s[j] && TakenTo(t, rows, n)[j] != TakenTo(s, rows, n)[j]
  {
    if RowFor(s[j], rows).None? || RowFor(s[j], rows).value.filledQty <= s[j].filledQty {
      ReadAlike(t[j], s[j], rows);
    }
    assert Reached(t, rows, j) && !Reached(s, rows, j);
    assert Taken(t[j], rows).filledQty > s[j].filledQty;
  }

  lemma FitDiffers(costs: CostModel, start: Balance, s: Session, rows: seq<Row>)
    requires Ready(costs, start, s, rows) && FillsFit(s, rows)
    ensures Differ(Midway(costs, Recorded(s), rows).orders, Midway(costs, s, rows).orders, rows)
  {
    var t, midT, mid := Recorded(s), Midway(costs, Recorded(s), rows), Midway(costs, s, rows);
    RecordedShadows(s);
    AdoptToShadowed(costs, t, s, rows, s.seqNo);
    FillsFitIsClean(costs, start, s, rows, s.seqNo);
    MidwayIsReady(costs, start, s, rows);
    CleanDiffers(midT, mid, rows);
  }

  lemma CleanDiffers(t: Session, s: Session, rows: seq<Row>)
    requires Shadows(t, s) && Shape(s) && AllClean(t, s, rows, s.seqNo)
    ensures Differ(t.orders, s.orders, rows)
  {
    forall id | id in s.orders && t.orders[id] != s.orders[id] && Reached(s.orders, rows, id) && RowFor(s.orders[id], rows).Some?
      ensures RowFor(s.orders[id], rows).value.filledQty <= s.orders[id].filledQty
    {
      assert CleanFill(t, s, rows, id);
    }
  }

  lemma FindLagging(costs: CostModel, start: Balance, s: Session, rows: seq<Row>) returns (bad: nat)
    requires Ready(costs, start, s, rows) && Kept(costs, start, s) && Legible(s) && FillsFit(s, rows) && !CatchesUp(s, rows)
    ensures bad in s.orders && Recorded(s).orders[bad].filledAmount != s.orders[bad].filledAmount
    ensures bad in Reconcile(costs, s, rows).0.orders && bad in Reconcile(costs, Recorded(s), rows).0.orders
    ensures Reconcile(costs, Recorded(s), rows).0.orders[bad] != Reconcile(costs, s, rows).0.orders[bad]
  {
    var t, midT, mid := Recorded(s), Midway(costs, Recorded(s), rows), Midway(costs, s, rows);
    RecordedReady(costs, start, s, rows);
    FitDiffers(costs, start, s, rows);
    MidwayAmounts(costs, t, s, rows);
    ReconcileTakes(costs, start, s, rows);
    ReconcileTakes(costs, start, t, rows);
    var id :| id in mid.orders && t.orders[id].filledAmount != s.orders[id].filledAmount
              && !(Reached(mid.orders, rows, id) && RowFor(mid.orders[id], rows).Some?);
    assert forall i :: i in mid.orders ==> i <= s.seqNo;
    bad := LagShows(midT.orders, mid.orders, rows, s.seqNo, id);
  }

  /** Restarted before its first record, the reconcile leaves such an order behind. */
  lemma AmountLags(costs: CostModel, start: Balance, s: Session, rows: seq<Row>)
    requires Ready(costs, start, s, rows) && Kept(costs, start, s) && Legible(s) && OneClock(s)
    requires FillsFit(s, rows) && !CatchesUp(s, rows)
    ensures |s.journal| <= |Reconcile(costs, s, rows).0.journal| && !SameAfterCut(costs, s, rows, |s.journal|)
  {
    var t := Recorded(s);
    var bad := FindLagging(costs, start, s, rows);
    RecordedReady(costs, start, s, rows);
    RestartAt(costs, start, s, t);
    var r := Resume(costs, s.journal).value;
    ReconcileSeen(costs, r, t, rows);
    LaggingVisible(costs, start, s, rows, bad);
    ReconcilePlain(costs, s, rows);
    CutDiffers(costs, s, rows, s.journal, r);
  }

  lemma LaggingVisible(costs: CostModel, start: Balance, s: Session, rows: seq<Row>, id: nat)
    requires Ready(costs, start, s, rows) && Kept(costs, start, s) && Legible(s) && id in s.orders
    requires Recorded(s).orders[id].filledAmount != s.orders[id].filledAmount
    ensures id in Visible(Reconcile(costs, s, rows).0.orders)
  {
    assert !s.orders[id].reject.ByGate? by {
      RecordedShadows(s);
      FilledIsSent(id, Recorded(s).orders[id], s.orders[id]);
    }
    ReconcileTakes(costs, start, s, rows);
    TakenRejects(s.orders, rows, s.seqNo, id);
  }

  lemma FilledIsSent(id: nat, t: Order, s: Order)
    requires OrderOk(id, t) && OrderOk(id, s) && Aside(t, s) && t.filledAmount != s.filledAmount
    ensures !s.reject.ByGate?
  {
  }

  lemma TakenRejects(orders: Orders, rows: seq<Row>, n: nat, id: nat)
    requires id in orders
    ensures id in TakenTo(Adopted(orders, rows, n), rows, n)
    ensures TakenTo(Adopted(orders, rows, n), rows, n)[id].reject == orders[id].reject
  {
  }
}
