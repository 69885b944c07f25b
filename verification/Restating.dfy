/** What a reconcile takes over without recording it. A row that shows another amount for the quantity an order already
    has is stored in memory only, so the records describe a session that differs from memory in amounts; this module
    follows the two side by side, for every broker list. */
module Restating {
  import opened Contracts
  import opened Accounting
  import opened Recovery
  import opened Sessions
  import opened Replay
  import opened Invariants
  import opened Reconciling
  import opened Adoption

  // ---------------------------------------------------------------- two sessions side by side

  /** The same order but for its amount. */
  predicate Aside(t: Order, s: Order) { t == s.(filledAmount := t.filledAmount) }

  /** The same session but for the amounts of its orders. */
  predicate Shadows(t: Session, s: Session) {
    && t.orders.Keys == s.orders.Keys && (forall id :: id in s.orders ==> Aside(t.orders[id], s.orders[id]))
    && t.ledger == s.ledger && t.seqNo == s.seqNo && t.submitTimes == s.submitTimes && t.journal == s.journal
  }

  /** The session with the amounts of another one, where no order's quantity has moved since. */
  function Trail(t: Session, s: Session, after: Session): Session {
    after.(orders := map id | id in after.orders ::
                       if id in t.orders && id in s.orders && after.orders[id].filledQty == s.orders[id].filledQty
                       then after.orders[id].(filledAmount := t.orders[id].filledAmount)
                       else after.orders[id])
  }

  lemma TrailIs(t: Session, s: Session, after: Session, u: Session)
    requires Shadows(u, after) && t.orders.Keys == s.orders.Keys == after.orders.Keys
    requires forall id :: id in after.orders ==>
               u.orders[id].filledAmount == if after.orders[id].filledQty == s.orders[id].filledQty
                                            then t.orders[id].filledAmount else after.orders[id].filledAmount
    ensures Trail(t, s, after) == u
  {
    assert Trail(t, s, after).orders == u.orders;
  }

  lemma TrailShadows(t: Session, s: Session, after: Session)
    ensures Shadows(Trail(t, s, after), after)
  {
  }

  lemma ShadowKnown(t: Session, s: Session)
    requires Shadows(t, s)
    ensures Known(t.orders) == Known(s.orders)
  {
    assert forall id :: id in s.orders ==> t.orders[id].ref == s.orders[id].ref;
  }

  lemma ShadowSums(t: Session, s: Session, symbol: string)
    requires Shadows(t, s)
    ensures Sum(t.orders, OpenOf(Sell, symbol), t.seqNo) == Sum(s.orders, OpenOf(Sell, symbol), s.seqNo)
  {
    SumAgree(t.orders, s.orders, OpenOf(Sell, symbol), s.seqNo);
  }

  lemma ShadowEnabled(t: Session, s: Session, a: Action)
    requires Shadows(t, s) && Enabled(s, a) && (a.Book? ==> t.orders[a.id] == s.orders[a.id])
    ensures Enabled(t, a)
  {
    ShadowKnown(t, s);
    if a.Place? {
      ShadowSums(t, s, a.intent.symbol);
    }
  }

  /** An action does the same to both, unless it books a fill on top of different amounts. */
  lemma ActionShadowed(costs: CostModel, t: Session, s: Session, a: Action)
    requires Shadows(t, s) && Enabled(s, a) && (a.Book? ==> t.orders[a.id] == s.orders[a.id])
    ensures Enabled(t, a) && Shadows(Next(costs, t, a), Next(costs, s, a))
  {
    ShadowEnabled(t, s, a);
  }

  // ---------------------------------------------------------------- the first loop

  lemma AdoptOneShadowed(costs: CostModel, t: Session, s: Session, known: set<string>, rows: seq<Row>, id: nat)
    requires Shadows(t, s)
    ensures Shadows(AdoptOne(costs, t, known, rows, id).0, AdoptOne(costs, s, known, rows, id).0)
    ensures AdoptOne(costs, t, known, rows, id).1 == AdoptOne(costs, s, known, rows, id).1
  {
    if id in s.orders {
      CandidatesReadIntent(t.orders[id], s.orders[id], rows, known);
    }
  }

  lemma {:induction false} AdoptToShadowed(costs: CostModel, t: Session, s: Session, rows: seq<Row>, n: nat)
    requires Shadows(t, s)
    ensures Shadows(AdoptTo(costs, t, rows, n).0, AdoptTo(costs, s, rows, n).0)
    ensures AdoptTo(costs, t, rows, n).1 == AdoptTo(costs, s, rows, n).1
  {
    if n == 0 {
      ShadowKnown(t, s);
    } else {
      AdoptToShadowed(costs, t, s, rows, n - 1);
      var (before, known) := AdoptTo(costs, s, rows, n - 1);
      AdoptOneShadowed(costs, AdoptTo(costs, t, rows, n - 1).0, before, known, rows, n);
    }
  }

  // ---------------------------------------------------------------- the second loop in closed form

  /** No order up to this one raises. */
  predicate Reached(orders: Orders, rows: seq<Row>, id: nat) {
    forall j :: j in orders && j <= id ==> Readable(orders[j], rows)
  }

  /** The order after a turn that raises nothing. */
  function Taken(o: Order, rows: seq<Row>): Order {
    if RowFor(o, rows).None? then o
    else
      var row := RowFor(o, rows).value;
      var next := DeriveStatus(row, HasCancelChild(rows, row.no));
      WithFill(o, row).(status := if next.Success? then next.value else o.status)
  }

  /** All orders up to n as the loop leaves them: each decided by itself, up to the first that raises. */
  function TakenTo(orders: Orders, rows: seq<Row>, n: nat): Orders {
    map id | id in orders :: if id <= n && Reached(orders, rows, id) then Taken(orders[id], rows) else orders[id]
  }

  lemma TurnTakes(costs: CostModel, s: Session, rows: seq<Row>, id: nat)
    requires Shape(s) && AllCovered(s.orders, s.ledger, s.seqNo) && NoPending(s.orders) && NamedRows(rows)
    requires id in s.orders
    ensures SyncOne(costs, s, rows, id).0.orders
            == if SyncOne(costs, s, rows, id).1.None? then s.orders[id := Taken(s.orders[id], rows)] else s.orders
  {
    if SyncOne(costs, s, rows, id).1.Some? {
      SyncRowLoud(costs, s, rows, id);
    } else if RowFor(s.orders[id], rows).Some? {
      SyncRowQuiet(costs, s, rows, id);
      FillPartOrders(costs, s, rows, id, RowFor(s.orders[id], rows).value);
    } else {
      assert s.orders[id := s.orders[id]] == s.orders;
    }
  }

  lemma ReachedStep(orders: Orders, rows: seq<Row>, n: nat)
    requires n > 0 && n in orders
    ensures TakenTo(orders, rows, n)
            == if Reached(orders, rows, n) then TakenTo(orders, rows, n - 1)[n := Taken(orders[n], rows)]
               else TakenTo(orders, rows, n - 1)
  {
  }

  lemma ReachedBefore(orders: Orders, rows: seq<Row>, n: nat)
    requires n > 0
    ensures Reached(orders, rows, n) <==> Reached(orders, rows, n - 1) && (n in orders ==> Readable(orders[n], rows))
  {
  }

  /** The second loop in closed form: every order is decided on the state before the loop, and the loop raises at the
      first order that cannot be read. */
  lemma {:induction false} SyncDecidesAtOnce(costs: CostModel, start: Balance, s: Session, rows: seq<Row>, n: nat)
    requires SoundCosts(costs) && Steady(start, s) && NamedRows(rows)
    ensures SyncTo(costs, s, rows, n).0.orders == TakenTo(s.orders, rows, n)
    ensures SyncTo(costs, s, rows, n).1.None? <==> Reached(s.orders, rows, n)
  {
    if n == 0 {
      assert TakenTo(s.orders, rows, 0) == s.orders;
    } else {
      SyncDecidesAtOnce(costs, start, s, rows, n - 1);
      ReachedBefore(s.orders, rows, n);
      var (before, err) := SyncTo(costs, s, rows, n - 1);
      if err.None? {
        assert Steady(start, before) by { SyncToSteady(costs, start, s, rows, n - 1); }
        DecideTurn(costs, s.orders, before, rows, n);
      } else if n in s.orders {
        ReachedStep(s.orders, rows, n);
      } else {
        assert TakenTo(s.orders, rows, n) == TakenTo(s.orders, rows, n - 1);
      }
    }
  }

  lemma DecideTurn(costs: CostModel, orders: Orders, before: Session, rows: seq<Row>, n: nat)
    requires Shape(before) && AllCovered(before.orders, before.ledger, before.seqNo) && NoPending(before.orders) && NamedRows(rows)
    requires n > 0 && Reached(orders, rows, n - 1) && before.orders == TakenTo(orders, rows, n - 1)
    ensures SyncOne(costs, before, rows, n).0.orders == TakenTo(orders, rows, n)
    ensures SyncOne(costs, before, rows, n).1.None? <==> (n in orders ==> Readable(orders[n], rows))
  {
    assert n in orders ==> before.orders[n] == orders[n];
    RaisesExactly(costs, before, rows, n);
    if n in orders {
      TurnTakes(costs, before, rows, n);
      NextTaken(orders, rows, n);
    } else {
      assert TakenTo(orders, rows, n) == TakenTo(orders, rows, n - 1);
    }
  }

  lemma NextTaken(orders: Orders, rows: seq<Row>, n: nat)
    requires n > 0 && n in orders && Reached(orders, rows, n - 1)
    ensures TakenTo(orders, rows, n)
            == if Readable(orders[n], rows) then TakenTo(orders, rows, n - 1)[n := Taken(orders[n], rows)]
               else TakenTo(orders, rows, n - 1)
  {
    ReachedBefore(orders, rows, n);
    ReachedStep(orders, rows, n);
  }

  lemma QuietIsReached(costs: CostModel, start: Balance, s: Session, rows: seq<Row>, n: nat)
    requires SoundCosts(costs) && Steady(start, s) && NamedRows(rows) && SyncTo(costs, s, rows, n).1.None?
    ensures Reached(s.orders, rows, n)
  {
    SyncDecidesAtOnce(costs, start, s, rows, n);
  }

  // ---------------------------------------------------------------- the second loop side by side

  /** The order's row brings no fill, or its amount is the same in both. */
  predicate CleanFill(t: Session, s: Session, rows: seq<Row>, id: nat) {
    id in s.orders && id in t.orders && RowFor(s.orders[id], rows).Some?
    && RowFor(s.orders[id], rows).value.filledQty > s.orders[id].filledQty ==>
      t.orders[id] == s.orders[id]
  }

  lemma TrailSelf(t: Session, s: Session)
    requires Shadows(t, s)
    ensures Trail(t, s, s) == t
  {
    TrailIs(t, s, s, t);
  }

  /** A turn that raises: at most an audit record. */
  lemma LoudTurnShadowed(costs: CostModel, t: Session, s: Session, rows: seq<Row>, id: nat) returns (run: seq<Event>)
    requires Shadows(t, s) && SyncOne(costs, s, rows, id).1.Some?
    requires Shape(s) && AllCovered(s.orders, s.ledger, s.seqNo) && NoPending(s.orders)
    ensures Reaches(costs, t, run, Trail(t, s, SyncOne(costs, s, rows, id).0))
  {
    SyncRowLoud(costs, s, rows, id);
    run := [];
    if SyncOne(costs, s, rows, id).0 == s {
      TrailSelf(t, s);
    } else {
      var note := Note(IntegrityViolation, id);
      ActionShadowed(costs, t, s, note);
      TrailIs(t, s, Next(costs, s, note), Next(costs, t, note));
      ReachesByAction(costs, t, [], t, note);
      run := [] + [Act(note)];
    }
  }

  /** The fill part of a turn: a booking, or nothing that is recorded. */
  lemma FillPartShadowed(costs: CostModel, t: Session, s: Session, rows: seq<Row>, id: nat, row: Row) returns (run: seq<Event>)
    requires Shadows(t, s) && CleanFill(t, s, rows, id)
    requires Shape(s) && AllCovered(s.orders, s.ledger, s.seqNo) && NoPending(s.orders) && NamedRows(rows)
    requires id in s.orders && Usable(s.orders[id], rows, row)
    ensures Reaches(costs, t, run, Trail(t, s, FillPart(costs, s, id, row)))
  {
    var after := FillPart(costs, s, id, row);
    FillPartOrders(costs, s, rows, id, row);
    run := [];
    if row.filledQty > s.orders[id].filledQty {
      var book := Book(id, row.filledQty, row.filledAmount);
      UsableBook(s, rows, id, row);
      ActionShadowed(costs, t, s, book);
      TrailIs(t, s, after, Next(costs, t, book));
      ReachesByAction(costs, t, [], t, book);
      run := [] + [Act(book)];
    } else {
      TrailIs(t, s, after, t);
    }
  }

  lemma TrailMoves(costs: CostModel, t: Session, s: Session, half: Session, id: nat, next: OrderStatus)
    requires t.orders.Keys == s.orders.Keys == half.orders.Keys && Enabled(half, Move(id, next))
    ensures Enabled(Trail(t, s, half), Move(id, next))
    ensures Next(costs, Trail(t, s, half), Move(id, next)) == Trail(t, s, Next(costs, half, Move(id, next)))
  {
    var move := Move(id, next);
    TrailShadows(t, s, half);
    ActionShadowed(costs, Trail(t, s, half), half, move);
    TrailIs(t, s, Next(costs, half, move), Next(costs, Trail(t, s, half), move));
  }

  /** One turn of the second loop: what the records describe moves by enabled actions. */
  lemma TurnShadowed(costs: CostModel, t: Session, s: Session, rows: seq<Row>, id: nat) returns (run: seq<Event>)
    requires Shadows(t, s) && (SyncOne(costs, s, rows, id).1.None? ==> CleanFill(t, s, rows, id))
    requires Shape(s) && AllCovered(s.orders, s.ledger, s.seqNo) && NoPending(s.orders) && NamedRows(rows)
    ensures Reaches(costs, t, run, Trail(t, s, SyncOne(costs, s, rows, id).0))
  {
    if SyncOne(costs, s, rows, id).1.Some? {
      run := LoudTurnShadowed(costs, t, s, rows, id);
    } else if id in s.orders && RowFor(s.orders[id], rows).Some? {
      var row := RowFor(s.orders[id], rows).value;
      SyncRowQuiet(costs, s, rows, id);
      run := FillPartShadowed(costs, t, s, rows, id, row);
      var next := DeriveStatus(row, HasCancelChild(rows, row.no)).value;
      if next != s.orders[id].status || row.filledQty > s.orders[id].filledQty {
        var half := FillPart(costs, s, id, row);
        FillPartOrders(costs, s, rows, id, row);
        SyncMoveEnabled(costs, s, rows, id, row, next);
        TrailMoves(costs, t, s, half, id, next);
        ReachesByAction(costs, t, run, Trail(t, s, half), Move(id, next));
        run := run + [Act(Move(id, next))];
      }
    } else {
      TrailSelf(t, s);
      run := [];
    }
  }

  /** Trails join: the amounts of orders whose quantity moved are those of the turn that moved it. */
  lemma TrailJoins(t: Session, s: Session, before: Session, after: Session, n: nat)
    requires t.orders.Keys == s.orders.Keys == before.orders.Keys == after.orders.Keys
    requires forall id :: id in s.orders && id != n ==> after.orders[id] == before.orders[id]
    requires n in s.orders ==> before.orders[n] == s.orders[n]
    ensures Trail(Trail(t, s, before), before, after) == Trail(t, s, after)
  {
    var mid := Trail(t, s, before);
    forall id | id in after.orders
      ensures Trail(mid, before, after).orders[id] == Trail(t, s, after).orders[id]
    {
      if id != n {
        TrailKeeps(t, s, before, after, id);
      }
    }
    assert Trail(mid, before, after).orders == Trail(t, s, after).orders;
  }

  lemma TrailKeeps(t: Session, s: Session, before: Session, after: Session, id: nat)
    requires id in t.orders && id in s.orders && id in before.orders && id in after.orders && after.orders[id] == before.orders[id]
    ensures Trail(Trail(t, s, before), before, after).orders[id] == Trail(t, s, after).orders[id]
  {
  }

  /** No fill is booked on top of an amount that was not recorded. */
  predicate AllClean(t: Session, s: Session, rows: seq<Row>, n: nat) {
    forall id :: id in s.orders && id <= n && Reached(s.orders, rows, id) ==> CleanFill(t, s, rows, id)
  }

  lemma NextTurnClean(t: Session, s: Session, before: Session, rows: seq<Row>, n: nat)
    requires t.orders.Keys == s.orders.Keys == before.orders.Keys && Shadows(t, s)
    requires n in s.orders ==> before.orders[n] == s.orders[n]
    requires Reached(s.orders, rows, n) && AllClean(t, s, rows, n)
    ensures CleanFill(Trail(t, s, before), before, rows, n)
  {
    if n in s.orders {
      assert CleanFill(t, s, rows, n);
      assert Trail(t, s, before).orders[n] == t.orders[n];
    }
  }

  lemma {:induction false} SyncToShadowed(costs: CostModel, start: Balance, t: Session, s: Session, rows: seq<Row>, n: nat)
    returns (run: seq<Event>)
    requires SoundCosts(costs) && Steady(start, s) && NamedRows(rows) && Shadows(t, s) && AllClean(t, s, rows, n)
    ensures Reaches(costs, t, run, Trail(t, s, SyncTo(costs, s, rows, n).0))
  {
    run := [];
    if n == 0 {
      TrailSelf(t, s);
    } else {
      run := SyncToShadowed(costs, start, t, s, rows, n - 1);
      var (before, err) := SyncTo(costs, s, rows, n - 1);
      if err.None? {
        var turn := NextTurnShadowed(costs, start, t, s, rows, n);
        ReachesOn(costs, t, run, Trail(t, s, before), turn, Trail(t, s, SyncTo(costs, s, rows, n).0));
        run := run + turn;
      }
    }
  }

  lemma NextTurnShadowed(costs: CostModel, start: Balance, t: Session, s: Session, rows: seq<Row>, n: nat) returns (turn: seq<Event>)
    requires SoundCosts(costs) && Steady(start, s) && NamedRows(rows) && Shadows(t, s) && AllClean(t, s, rows, n)
    requires n > 0 && SyncTo(costs, s, rows, n - 1).1.None?
    ensures Reaches(costs, Trail(t, s, SyncTo(costs, s, rows, n - 1).0), turn, Trail(t, s, SyncTo(costs, s, rows, n).0))
  {
    var before := SyncTo(costs, s, rows, n - 1).0;
    SyncToSteady(costs, start, s, rows, n - 1);
    if SyncOne(costs, before, rows, n).1.None? {
      assert Reached(s.orders, rows, n) by { SyncDecidesAtOnce(costs, start, s, rows, n); }
      NextTurnClean(t, s, before, rows, n);
    }
    turn := OneTurnShadowed(costs, t, s, before, rows, n);
  }

  lemma OneTurnShadowed(costs: CostModel, t: Session, s: Session, before: Session, rows: seq<Row>, n: nat) returns (turn: seq<Event>)
    requires Shape(before) && AllCovered(before.orders, before.ledger, before.seqNo) && NoPending(before.orders) && NamedRows(rows)
    requires t.orders.Keys == s.orders.Keys == before.orders.Keys && (n in s.orders ==> before.orders[n] == s.orders[n])
    requires SyncOne(costs, before, rows, n).1.None? ==> CleanFill(Trail(t, s, before), before, rows, n)
    ensures Reaches(costs, Trail(t, s, before), turn, Trail(t, s, SyncOne(costs, before, rows, n).0))
  {
    SyncOneFrame(costs, before, rows, n);
    TrailShadows(t, s, before);
    turn := TurnShadowed(costs, Trail(t, s, before), before, rows, n);
    TrailJoins(t, s, before, SyncOne(costs, before, rows, n).0, n);
  }

  // ---------------------------------------------------------------- the whole reconcile side by side

  lemma {:induction false} AdoptKeepsFills(costs: CostModel, s: Session, rows: seq<Row>, n: nat)
    ensures var t := AdoptTo(costs, s, rows, n).0;
            && t.orders.Keys == s.orders.Keys && t.seqNo == s.seqNo
            && forall id :: id in s.orders ==>
                 t.orders[id].filledQty == s.orders[id].filledQty && t.orders[id].filledAmount == s.orders[id].filledAmount
  {
    if n > 0 {
      AdoptKeepsFills(costs, s, rows, n - 1);
    }
  }

  lemma TrailReads(t: Session, s: Session, t': Session, s': Session, after: Session)
    requires t.orders.Keys == s.orders.Keys == t'.orders.Keys == s'.orders.Keys
    requires forall id :: id in s.orders ==>
               s.orders[id].filledQty == s'.orders[id].filledQty && t.orders[id].filledAmount == t'.orders[id].filledAmount
    ensures Trail(t, s, after) == Trail(t', s', after)
  {
    assert Trail(t, s, after).orders == Trail(t', s', after).orders;
  }

  /** Whatever the list: what the records describe moves by enabled actions, as long as no fill is booked on top of an
      amount that was not recorded. */
  lemma ReconcileShadowed(costs: CostModel, start: Balance, t: Session, s: Session, rows: seq<Row>) returns (run: seq<Event>)
    requires SoundCosts(costs) && Lawful(start, t) && Lawful(start, s) && NoPending(s.orders) && NamedRows(rows) && Shadows(t, s)
    requires AllClean(AdoptTo(costs, t, rows, s.seqNo).0, AdoptTo(costs, s, rows, s.seqNo).0, rows, s.seqNo)
    ensures Reaches(costs, t, run, Trail(t, s, Reconcile(costs, s, rows).0))
  {
    var n := s.seqNo;
    var first := AdoptToRuns(costs, start, t, rows, n);
    var midT, mid := AdoptTo(costs, t, rows, n).0, AdoptTo(costs, s, rows, n).0;
    AdoptToShadowed(costs, t, s, rows, n);
    assert Steady(start, mid) by { AdoptToLawful(costs, start, s, rows, n); }
    var second := SyncToShadowed(costs, start, midT, mid, rows, n);
    AdoptKeepsFills(costs, t, rows, n);
    AdoptKeepsFills(costs, s, rows, n);
    TrailReads(t, s, midT, mid, Reconcile(costs, s, rows).0);
    ReachesOn(costs, t, first, midT, second, Trail(t, s, Reconcile(costs, s, rows).0));
    run := first + second;
  }

  /** From a session its journal mirrors, a reconcile of any list is a run of enabled actions to a session that differs
      from its result at most in amounts; the journal mirrors that session. */
  lemma ReconcileRunsAside(costs: CostModel, start: Balance, s: Session, rows: seq<Row>) returns (run: seq<Event>)
    requires SoundCosts(costs) && Inv(costs, start, s) && NoPending(s.orders) && NamedRows(rows)
    ensures var after := Reconcile(costs, s, rows).0;
            && Reaches(costs, s, run, Trail(s, s, after))
            && Inv(costs, start, Trail(s, s, after)) && Shadows(Trail(s, s, after), after)
            && Lawful(start, after) && NoPending(after.orders)
  {
    run := ReconcileShadowed(costs, start, s, s, rows);
    RunInv(costs, start, s, run);
    TrailShadows(s, s, Reconcile(costs, s, rows).0);
    ReconcileLawful(costs, start, s, rows);
  }

  // ---------------------------------------------------------------- when the journal still mirrors memory

  /** A restart continues the session as it is. */
  ghost predicate Replays(costs: CostModel, s: Session) {
    Resume(costs, s.journal).Some? && Continues(Resume(costs, s.journal).value, s)
  }

  lemma SameAmounts(t: Session, s: Session)
    requires Shadows(t, s) && Shape(t) && Shape(s)
    requires forall id :: id in Visible(s.orders) ==> t.orders[id].filledAmount == s.orders[id].filledAmount
    ensures t == s
  {
    forall id | id in s.orders
      ensures t.orders[id] == s.orders[id]
    {
      assert OrderOk(id, t.orders[id]) && OrderOk(id, s.orders[id]);
    }
    assert t.orders == s.orders;
  }

  /** Of two sessions with one journal, mirrored in the first, the second is mirrored or continued only if it is the
      first. */
  lemma MirroredIsSame(costs: CostModel, start: Balance, t: Session, s: Session)
    requires Rebuilds(costs, start, t) && Shadows(t, s) && Shape(t) && Shape(s)
    ensures Resume(costs, s.journal).Some? && Continues(Resume(costs, s.journal).value, t)
    ensures Rebuilds(costs, start, s) <==> t == s
    ensures Replays(costs, s) <==> t == s
  {
    RestoreContinues(costs, start, t);
    if Rebuilds(costs, start, s) {
      RestoreContinues(costs, start, s);
    }
    if Replays(costs, s) {
      var r := Resume(costs, s.journal).value;
      forall id | id in Visible(s.orders)
        ensures t.orders[id].filledAmount == s.orders[id].filledAmount
      {
        assert id in r.orders && RestoredAs(r.orders[id], s.orders[id]) && RestoredAs(r.orders[id], t.orders[id]);
      }
      SameAmounts(t, s);
    }
  }

  /** No order the second loop comes to is shown another amount for the quantity it has. */
  predicate StandsTo(orders: Orders, rows: seq<Row>) {
    forall id :: id in orders && Reached(orders, rows, id) ==> AmountStands(orders[id], rows)
  }

  lemma TrailStands(s: Session, after: Session, mid: Orders, rows: seq<Row>, n: nat)
    requires after.orders == TakenTo(mid, rows, n) && s.orders.Keys == mid.Keys && forall id :: id in mid ==> id <= n
    requires forall id :: id in mid ==> mid[id].filledQty == s.orders[id].filledQty && mid[id].filledAmount == s.orders[id].filledAmount
    ensures Trail(s, s, after) == after <==> StandsTo(mid, rows)
  {
    if StandsTo(mid, rows) {
      forall id | id in mid
        ensures Trail(s, s, after).orders[id] == after.orders[id]
      {
      }
      assert Trail(s, s, after).orders == after.orders;
    } else {
      var id :| id in mid && Reached(mid, rows, id) && !AmountStands(mid[id], rows);
      assert after.orders[id] == Taken(mid[id], rows);
      assert Trail(s, s, after).orders[id].filledAmount != after.orders[id].filledAmount;
    }
  }

  /** EXACT CONDITION. After a reconcile the journal mirrors memory, and a restart continues it, if and only if no order
      the second loop came to was shown another amount for the quantity it had; the orders are those of the first loop,
      which may just have been given the row. */
  lemma MirrorsExactly(costs: CostModel, start: Balance, s: Session, rows: seq<Row>)
    requires SoundCosts(costs) && Inv(costs, start, s) && NoPending(s.orders) && GoodSnapshot(rows)
    ensures var after, mid := Reconcile(costs, s, rows).0, Adopted(s.orders, rows, s.seqNo);
            && (Rebuilds(costs, start, after) <==> StandsTo(mid, rows))
            && (Replays(costs, after) <==> StandsTo(mid, rows))
            && Resume(costs, after.journal).Some?
  {
    var after, mid := Reconcile(costs, s, rows).0, AdoptTo(costs, s, rows, s.seqNo).0;
    var run := ReconcileRunsAside(costs, start, s, rows);
    MirroredIsSame(costs, start, Trail(s, s, after), after);
    LoopDecidesAtOnce(costs, s, rows, s.seqNo);
    AdoptKeepsFills(costs, s, rows, s.seqNo);
    assert Steady(start, mid) by { AdoptToLawful(costs, start, s, rows, s.seqNo); }
    SyncDecidesAtOnce(costs, start, mid, rows, s.seqNo);
    TrailStands(s, after, mid.orders, rows, s.seqNo);
  }

  /** The same for a reconcile that raises nothing: every order's amount stands after the first loop. */
  lemma QuietMirrorsExactly(costs: CostModel, start: Balance, s: Session, rows: seq<Row>)
    requires SoundCosts(costs) && Inv(costs, start, s) && NoPending(s.orders) && GoodSnapshot(rows)
    requires Reconcile(costs, s, rows).1.None?
    ensures Rebuilds(costs, start, Reconcile(costs, s, rows).0) <==> AmountsStand(Adopted(s.orders, rows, s.seqNo), rows)
    ensures Replays(costs, Reconcile(costs, s, rows).0) <==> AmountsStand(Adopted(s.orders, rows, s.seqNo), rows)
  {
    var mid := AdoptTo(costs, s, rows, s.seqNo).0;
    MirrorsExactly(costs, start, s, rows);
    LoopDecidesAtOnce(costs, s, rows, s.seqNo);
    assert Steady(start, mid) by { AdoptToLawful(costs, start, s, rows, s.seqNo); }
    SyncDecidesAtOnce(costs, start, mid, rows, s.seqNo);
  }

  // ---------------------------------------------------------------- when a broker that restates nothing is enough

  /** A row without fills has cost nothing. */
  predicate UnfilledIsFree(rows: seq<Row>) {
    forall k :: 0 <= k < |rows| && rows[k].filledQty == 0 ==> rows[k].filledAmount == 0
  }

  /** If the list restates no amount of an order as it is, shows unfilled rows at nothing and offers no numbered order in
      doubt another row, amounts stand after the first loop too. */
  lemma AmountsStandAfterAdoption(s: Session, rows: seq<Row>)
    requires Shape(s) && AmountsStand(s.orders, rows) && UnfilledIsFree(rows) && !Readoptable(s.orders, rows)
    ensures AmountsStand(Adopted(s.orders, rows, s.seqNo), rows)
  {
    var mid := Adopted(s.orders, rows, s.seqNo);
    forall id | id in mid
      ensures AmountStands(mid[id], rows)
    {
      if mid[id] != s.orders[id] {
        assert !Replaceable(s.orders, rows, id);
        assert OrderOk(id, s.orders[id]);
        RowOfFacts(rows, mid[id].ref.no.value);
      }
    }
  }

  // ---------------------------------------------------------------- when the journal becomes unreadable

  lemma StaysUnreadable(journal: seq<Record>, more: seq<Record>)
    requires journal <= more && ReplayOrders(journal).Failure?
    ensures ReplayOrders(more).Failure?
  {
    assert more[..|journal|] == journal;
    FailureSticks(more, |journal|);
  }

  /** The records give an order this amount. */
  predicate OnRecord(journal: seq<Record>, id: nat, amount: int) {
    ReplayOrders(journal).Success? && id in ReplayOrders(journal).value && ReplayOrders(journal).value[id].filledAmount == amount
  }

  lemma MirroredOnRecord(costs: CostModel, start: Balance, t: Session, id: nat)
    requires Rebuilds(costs, start, t) && id in Visible(t.orders)
    ensures OnRecord(t.journal, id, t.orders[id].filledAmount)
  {
    assert Mirror(ReplayOrders(t.journal).value[id], t.orders[id]);
  }

  /** A fill booked on top of an amount that was not recorded contradicts the records from its own record on. */
  lemma DirtyFillUnreadable(costs: CostModel, s: Session, rows: seq<Row>, id: nat, amount: int)
    requires Shape(s) && AllCovered(s.orders, s.ledger, s.seqNo) && NoPending(s.orders) && NamedRows(rows)
    requires id in s.orders && RowFor(s.orders[id], rows).Some? && SyncOne(costs, s, rows, id).1.None?
    requires RowFor(s.orders[id], rows).value.filledQty > s.orders[id].filledQty
    requires OnRecord(s.journal, id, amount) && amount != s.orders[id].filledAmount
    ensures UnreadableAfter(s.journal, SyncOne(costs, s, rows, id).0.journal)
  {
    var fill := FillOf(s.orders[id], RowFor(s.orders[id], rows).value);
    FillIsRecorded(costs, s, rows, id);
    assert OrderOk(id, s.orders[id]);
    FillContradicts(s.journal, fill, amount);
  }

  /** One record more and the journal cannot be read. */
  ghost predicate UnreadableAfter(before: seq<Record>, after: seq<Record>) {
    exists r :: before + [r] <= after && ReplayOrders(before + [r]).Failure?
  }

  lemma UnreadableBeyond(before: seq<Record>, after: seq<Record>, more: seq<Record>, n: nat)
    requires UnreadableAfter(before, after) && after <= more && |before| < n <= |more|
    ensures ReplayOrders(more[..n]).Failure?
  {
    var r :| before + [r] <= after && ReplayOrders(before + [r]).Failure?;
    StaysUnreadable(before + [r], more[..n]);
  }

  function FillOf(o: Order, row: Row): Record {
    FillRecord(o.id, row.filledQty - o.filledQty, row.filledAmount - o.filledAmount, row.filledQty, row.filledAmount)
  }

  lemma FillIsRecorded(costs: CostModel, s: Session, rows: seq<Row>, id: nat)
    requires Shape(s) && AllCovered(s.orders, s.ledger, s.seqNo) && NoPending(s.orders) && NamedRows(rows)
    requires id in s.orders && RowFor(s.orders[id], rows).Some? && SyncOne(costs, s, rows, id).1.None?
    requires RowFor(s.orders[id], rows).value.filledQty > s.orders[id].filledQty
    ensures s.journal + [FillOf(s.orders[id], RowFor(s.orders[id], rows).value)] <= SyncOne(costs, s, rows, id).0.journal
  {
    var row := RowFor(s.orders[id], rows).value;
    SyncRowQuiet(costs, s, rows, id);
    UsableBook(s, rows, id, row);
    BookSucceeds(costs, s, id, row.filledQty, row.filledAmount);
    assert OrderOk(id, s.orders[id]);
    assert FillPart(costs, s, id, row).journal == s.journal + [FillOf(s.orders[id], row)];
  }

  lemma FillContradicts(journal: seq<Record>, fill: Record, amount: int)
    requires fill.FillRecord? && OnRecord(journal, fill.id, amount) && fill.cumAmount - fill.deltaAmount != amount
    ensures ReplayOrders(journal + [fill]) == Failure(InconsistentFill)
  {
    assert (journal + [fill])[..|journal + [fill]| - 1] == journal;
  }
}
