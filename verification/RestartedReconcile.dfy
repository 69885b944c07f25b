/** Exactly-once fills across a crash: cutting a reconcile at any journal record, restoring the
    session from the journal and reconciling the same snapshot gives the uninterrupted result. */
module RestartedReconcile {
  import opened Contracts
  import opened Accounting
  import opened Recovery
  import opened Sessions
  import opened Replay
  import opened Invariants
  import opened Reconciling
  import opened Adoption
  import opened ExactlyOnce
  import opened Restating

  // ---------------------------------------------------------------- refused orders do not matter

  /** Orders refused by the risk gate are closed, not in doubt and hold no number. */
  predicate GateClosed(orders: Orders) {
    forall id :: id in orders && orders[id].reject.ByGate? ==>
      orders[id].Terminal() && !orders[id].status.Unknown? && !orders[id].Numbered()
  }

  /** The same session without the refused orders. */
  predicate Seen(r: Session, a: Session) {
    r.orders == Visible(a.orders) && r.ledger == a.ledger && GateClosed(a.orders)
  }

  lemma KnownSeen(orders: Orders)
    requires GateClosed(orders)
    ensures Known(Visible(orders)) == Known(orders)
  {
    forall no | no in Known(orders)
      ensures no in Known(Visible(orders))
    {
      var id :| id in orders && orders[id].Numbered() && orders[id].ref.no.value == no;
      assert id in Visible(orders);
    }
  }

  lemma AdoptedSeen(orders: Orders, rows: seq<Row>, n: nat)
    requires GateClosed(orders)
    ensures Adopted(Visible(orders), rows, n) == Visible(Adopted(orders, rows, n))
    ensures GateClosed(Adopted(orders, rows, n))
  {
    KnownSeen(orders);
  }

  lemma AdoptedBeyond(orders: Orders, rows: seq<Row>, m: nat, n: nat)
    requires m <= n && forall id :: id in orders ==> id <= m
    ensures Adopted(orders, rows, n) == Adopted(orders, rows, m)
  {
  }

  lemma PutSeen(r: Session, a: Session, id: nat, o: Order)
    requires Seen(r, a) && id in r.orders && !o.reject.ByGate?
    ensures Seen(Put(r, id, o), Put(a, id, o))
  {
    assert Visible(a.orders[id := o]) == Visible(a.orders)[id := o];
  }

  lemma FillPartSeen(costs: CostModel, r: Session, a: Session, id: nat, row: Row)
    requires Seen(r, a) && id in r.orders
    ensures Seen(FillPart(costs, r, id, row), FillPart(costs, a, id, row))
    ensures id in FillPart(costs, r, id, row).orders
  {
    var o := r.orders[id];
    if row.filledQty > o.filledQty {
      PutSeen(r, a, id, o.(filledQty := row.filledQty, filledAmount := row.filledAmount));
    } else {
      PutSeen(r, a, id, o.(filledAmount := row.filledAmount));
    }
  }

  lemma MoveSeen(costs: CostModel, r: Session, a: Session, id: nat, status: OrderStatus)
    requires Seen(r, a) && id in r.orders
    ensures Seen(Next(costs, r, Move(id, status)), Next(costs, a, Move(id, status)))
  {
    PutSeen(r, a, id, r.orders[id].(status := status));
  }

  lemma SyncOneSeen(costs: CostModel, r: Session, a: Session, rows: seq<Row>, id: nat)
    requires Seen(r, a)
    ensures Seen(SyncOne(costs, r, rows, id).0, SyncOne(costs, a, rows, id).0)
    ensures SyncOne(costs, r, rows, id).1 == SyncOne(costs, a, rows, id).1
  {
    if id in r.orders && RowFor(r.orders[id], rows).Some? {
      var o, row := a.orders[id], RowFor(a.orders[id], rows).value;
      FillPartSeen(costs, r, a, id, row);
      var derived := DeriveStatus(row, HasCancelChild(rows, o.ref.no.value));
      if derived.Success? {
        MoveSeen(costs, FillPart(costs, r, id, row), FillPart(costs, a, id, row), id, derived.value);
      }
    }
  }

  lemma {:induction false} SyncToSeen(costs: CostModel, r: Session, a: Session, rows: seq<Row>, n: nat)
    requires Seen(r, a)
    ensures Seen(SyncTo(costs, r, rows, n).0, SyncTo(costs, a, rows, n).0)
    ensures SyncTo(costs, r, rows, n).1 == SyncTo(costs, a, rows, n).1
  {
    if n > 0 {
      SyncToSeen(costs, r, a, rows, n - 1);
      SyncOneSeen(costs, SyncTo(costs, r, rows, n - 1).0, SyncTo(costs, a, rows, n - 1).0, rows, n);
    }
  }

  lemma SyncOneKeys(costs: CostModel, s: Session, rows: seq<Row>, id: nat)
    ensures SyncOne(costs, s, rows, id).0.orders.Keys == s.orders.Keys
  {
  }

  /** Ids beyond the last order are idle turns. */
  lemma {:induction false} SyncToBeyond(costs: CostModel, s: Session, rows: seq<Row>, m: nat, n: nat)
    requires m <= n && forall id :: id in s.orders ==> id <= m
    ensures SyncTo(costs, s, rows, n) == SyncTo(costs, s, rows, m)
    ensures SyncTo(costs, s, rows, m).0.orders.Keys == s.orders.Keys
  {
    if m < n {
      SyncToBeyond(costs, s, rows, m, n - 1);
    } else {
      SyncToKeys(costs, s, rows, m);
    }
  }

  lemma {:induction false} SyncToKeys(costs: CostModel, s: Session, rows: seq<Row>, n: nat)
    ensures SyncTo(costs, s, rows, n).0.orders.Keys == s.orders.Keys
  {
    if n > 0 {
      SyncToKeys(costs, s, rows, n - 1);
      SyncOneKeys(costs, SyncTo(costs, s, rows, n - 1).0, rows, n);
    }
  }

  /** Reconciling without the refused orders gives the same result without them. */
  lemma ReconcileSeen(costs: CostModel, r: Session, a: Session, rows: seq<Row>)
    requires Seen(r, a) && OneUnsurePerKey(a.orders) && DistinctRows(rows)
    requires r.seqNo <= a.seqNo && forall id :: id in r.orders ==> id <= r.seqNo
    ensures Reconcile(costs, r, rows).0.orders == Visible(Reconcile(costs, a, rows).0.orders)
    ensures Reconcile(costs, r, rows).0.ledger == Reconcile(costs, a, rows).0.ledger
    ensures Reconcile(costs, r, rows).1 == Reconcile(costs, a, rows).1
  {
    LoopDecidesAtOnce(costs, a, rows, a.seqNo);
    LoopDecidesAtOnce(costs, r, rows, r.seqNo);
    AdoptedSeen(a.orders, rows, a.seqNo);
    AdoptedBeyond(r.orders, rows, r.seqNo, a.seqNo);
    var midR, midA := Midway(costs, r, rows), Midway(costs, a, rows);
    assert Seen(midR, midA);
    SyncToSeen(costs, midR, midA, rows, a.seqNo);
    SyncToBeyond(costs, midR, rows, r.seqNo, a.seqNo);
  }

  // ---------------------------------------------------------------- every journal prefix is a cut

  lemma {:induction false} AdoptToJournal(costs: CostModel, s: Session, rows: seq<Row>, m: nat)
    ensures s.journal <= AdoptTo(costs, s, rows, m).0.journal
    ensures m > 0 ==> AdoptTo(costs, s, rows, m - 1).0.journal <= AdoptTo(costs, s, rows, m).0.journal
                      && |AdoptTo(costs, s, rows, m).0.journal| <= |AdoptTo(costs, s, rows, m - 1).0.journal| + 1
  {
    if m > 0 {
      AdoptToJournal(costs, s, rows, m - 1);
    }
  }

  lemma {:induction false} AdoptionCut(costs: CostModel, s: Session, rows: seq<Row>, m: nat, n: nat) returns (k: nat)
    requires |s.journal| <= n <= |AdoptTo(costs, s, rows, m).0.journal|
    ensures k <= m && AdoptTo(costs, s, rows, k).0.journal == AdoptTo(costs, s, rows, m).0.journal[..n]
  {
    AdoptToJournal(costs, s, rows, m);
    k := m;
    if n < |AdoptTo(costs, s, rows, m).0.journal| {
      k := AdoptionCut(costs, s, rows, m - 1, n);
    }
  }

  /** A turn of the second loop writes nothing, one record, or a fill record and then a status record. */
  lemma TurnRecords(costs: CostModel, s: Session, rows: seq<Row>, id: nat)
    requires Workable(s, rows)
    ensures var t := SyncOne(costs, s, rows, id);
            && s.journal <= t.0.journal && |t.0.journal| <= |s.journal| + 2
            && (t.1.Some? ==> SameCore(t.0, s) && |t.0.journal| <= |s.journal| + 1)
            && (|t.0.journal| == |s.journal| + 2 ==>
                  && t.1.None? && id in s.orders && RowFor(s.orders[id], rows).Some?
                  && RowFor(s.orders[id], rows).value.filledQty > s.orders[id].filledQty
                  && FillPart(costs, s, id, RowFor(s.orders[id], rows).value).journal == t.0.journal[..|s.journal| + 1])
  {
    if SyncOne(costs, s, rows, id).1.Some? {
      SyncRowLoud(costs, s, rows, id);
    } else if id in s.orders && RowFor(s.orders[id], rows).Some? {
      SyncRowQuiet(costs, s, rows, id);
      FillPartOrders(costs, s, rows, id, RowFor(s.orders[id], rows).value);
    }
  }

  /** The cut of the second loop at n records, as a place and the memory there. */
  ghost predicate SyncCutAt(costs: CostModel, s: Session, rows: seq<Row>, c: Cut, a: Session) {
    match c
    case InAdoption(_) => false
    case BetweenTurns(k) => SyncTo(costs, s, rows, k).1.None? && SameCore(a, SyncTo(costs, s, rows, k).0)
    case InTurn(k) => CutInTurn(costs, s, rows, a, k)
  }

  /** The memory at the end of a turn, or half way through it. */
  ghost predicate TurnState(costs: CostModel, s: Session, rows: seq<Row>, m: nat, a: Session)
    requires m > 0
  {
    var t := SyncTo(costs, s, rows, m - 1).0;
    || a == SyncTo(costs, s, rows, m).0
    || (m in t.orders && RowFor(t.orders[m], rows).Some? && SyncTo(costs, s, rows, m).1.None?
        && a == FillPart(costs, t, m, RowFor(t.orders[m], rows).value))
  }

  lemma CutOfTurn(costs: CostModel, s: Session, rows: seq<Row>, m: nat, n: nat) returns (c: Cut, a: Session)
    requires m > 0 && SyncTo(costs, s, rows, m - 1).1.None?
    requires var t := SyncTo(costs, s, rows, m - 1).0;
             && Workable(t, rows)
             && |t.journal| < n <= |SyncTo(costs, s, rows, m).0.journal|
    ensures SyncCutAt(costs, s, rows, c, a) && c.turn <= m && TurnState(costs, s, rows, m, a)
    ensures a.journal == SyncTo(costs, s, rows, m).0.journal[..n]
  {
    var t := SyncTo(costs, s, rows, m - 1).0;
    TurnRecords(costs, t, rows, m);
    var after := SyncOne(costs, t, rows, m);
    if n == |after.0.journal| {
      c, a := if after.1.None? then BetweenTurns(m) else BetweenTurns(m - 1), after.0;
    } else {
      c, a := InTurn(m), FillPart(costs, t, m, RowFor(t.orders[m], rows).value);
    }
  }

  lemma {:induction false} SyncToJournal(costs: CostModel, s: Session, rows: seq<Row>, m: nat)
    ensures s.journal <= SyncTo(costs, s, rows, m).0.journal
    ensures m > 0 ==> SyncTo(costs, s, rows, m - 1).0.journal <= SyncTo(costs, s, rows, m).0.journal
  {
    if m > 0 {
      SyncToJournal(costs, s, rows, m - 1);
      TurnAppends(costs, SyncTo(costs, s, rows, m - 1).0, rows, m);
    }
  }

  /** What the records describe at a moment of a turn is reached by enabled actions. */
  lemma TurnStateShadowed(costs: CostModel, start: Balance, t: Session, s: Session, rows: seq<Row>, m: nat, a: Session)
    returns (run: seq<Event>)
    requires SoundCosts(costs) && Steady(start, s) && NamedRows(rows) && Shadows(t, s) && AllClean(t, s, rows, m)
    requires m > 0 && SyncTo(costs, s, rows, m - 1).1.None? && TurnState(costs, s, rows, m, a)
    ensures Reaches(costs, t, run, Trail(t, s, a))
  {
    if a == SyncTo(costs, s, rows, m).0 {
      run := SyncToShadowed(costs, start, t, s, rows, m);
    } else {
      run := HalfStateShadowed(costs, start, t, s, rows, m);
    }
  }

  lemma HalfStateShadowed(costs: CostModel, start: Balance, t: Session, s: Session, rows: seq<Row>, m: nat) returns (run: seq<Event>)
    requires SoundCosts(costs) && Steady(start, s) && NamedRows(rows) && Shadows(t, s) && AllClean(t, s, rows, m)
    requires m > 0 && SyncTo(costs, s, rows, m).1.None? && m in SyncTo(costs, s, rows, m - 1).0.orders
    requires RowFor(SyncTo(costs, s, rows, m - 1).0.orders[m], rows).Some?
    ensures var before := SyncTo(costs, s, rows, m - 1).0;
            Reaches(costs, t, run, Trail(t, s, FillPart(costs, before, m, RowFor(before.orders[m], rows).value)))
  {
    HalfTurnBegins(costs, start, t, s, rows, m);
    var first := TurnsBefore(costs, start, t, s, rows, m);
    run := HalfTurnOn(costs, t, s, SyncTo(costs, s, rows, m - 1).0, rows, m, first);
  }

  lemma TurnsBefore(costs: CostModel, start: Balance, t: Session, s: Session, rows: seq<Row>, m: nat) returns (run: seq<Event>)
    requires SoundCosts(costs) && Steady(start, s) && NamedRows(rows) && Shadows(t, s) && AllClean(t, s, rows, m) && m > 0
    ensures Reaches(costs, t, run, Trail(t, s, SyncTo(costs, s, rows, m - 1).0))
  {
    run := SyncToShadowed(costs, start, t, s, rows, m - 1);
  }

  lemma HalfTurnOn(costs: CostModel, t: Session, s: Session, before: Session, rows: seq<Row>, m: nat, run: seq<Event>)
    returns (more: seq<Event>)
    requires t.orders.Keys == s.orders.Keys == before.orders.Keys && m in before.orders && before.orders[m] == s.orders[m]
    requires Workable(before, rows) && CleanFill(Trail(t, s, before), before, rows, m)
    requires RowFor(before.orders[m], rows).Some? && SyncOne(costs, before, rows, m).1.None?
    requires Reaches(costs, t, run, Trail(t, s, before))
    ensures Reaches(costs, t, more, Trail(t, s, FillPart(costs, before, m, RowFor(before.orders[m], rows).value)))
  {
    var half := HalfTurnShadowed(costs, t, s, before, rows, m);
    ReachesOn(costs, t, run, Trail(t, s, before), half, Trail(t, s, FillPart(costs, before, m, RowFor(before.orders[m], rows).value)));
    more := run + half;
  }

  lemma HalfTurnBegins(costs: CostModel, start: Balance, t: Session, s: Session, rows: seq<Row>, m: nat)
    requires SoundCosts(costs) && Steady(start, s) && NamedRows(rows) && Shadows(t, s) && AllClean(t, s, rows, m)
    requires m > 0 && SyncTo(costs, s, rows, m).1.None?
    ensures var before := SyncTo(costs, s, rows, m - 1).0;
            && Workable(before, rows) && before.orders.Keys == s.orders.Keys && (m in s.orders ==> before.orders[m] == s.orders[m])
            && CleanFill(Trail(t, s, before), before, rows, m) && SyncOne(costs, before, rows, m).1.None?
  {
    SyncToUnfolds(costs, s, rows, m);
    SyncToSteady(costs, start, s, rows, m - 1);
    QuietIsReached(costs, start, s, rows, m);
    NextTurnClean(t, s, SyncTo(costs, s, rows, m - 1).0, rows, m);
  }

  lemma HalfTurnShadowed(costs: CostModel, t: Session, s: Session, before: Session, rows: seq<Row>, m: nat) returns (run: seq<Event>)
    requires t.orders.Keys == s.orders.Keys == before.orders.Keys && m in before.orders && before.orders[m] == s.orders[m]
    requires Workable(before, rows) && CleanFill(Trail(t, s, before), before, rows, m)
    requires RowFor(before.orders[m], rows).Some? && SyncOne(costs, before, rows, m).1.None?
    ensures Reaches(costs, Trail(t, s, before), run, Trail(t, s, FillPart(costs, before, m, RowFor(before.orders[m], rows).value)))
  {
    var row := RowFor(before.orders[m], rows).value;
    assert Usable(before.orders[m], rows, row) by { SyncRowQuiet(costs, before, rows, m); }
    TrailShadows(t, s, before);
    run := FillPartShadowed(costs, Trail(t, s, before), before, rows, m, row);
    HalfTurnTrail(costs, t, s, before, rows, m, row);
  }

  lemma HalfTurnTrail(costs: CostModel, t: Session, s: Session, before: Session, rows: seq<Row>, m: nat, row: Row)
    requires t.orders.Keys == s.orders.Keys == before.orders.Keys && m in before.orders && before.orders[m] == s.orders[m]
    requires Workable(before, rows) && Usable(before.orders[m], rows, row)
    ensures Trail(Trail(t, s, before), before, FillPart(costs, before, m, row)) == Trail(t, s, FillPart(costs, before, m, row))
  {
    FillPartOrders(costs, before, rows, m, row);
    TrailJoins(t, s, before, FillPart(costs, before, m, row), m);
  }

  lemma LastTurnCut(costs: CostModel, start: Balance, t: Session, s: Session, rows: seq<Row>, m: nat, n: nat)
    returns (c: Cut, a: Session, run: seq<Event>)
    requires Ready(costs, start, s, rows) && Shadows(t, s) && AllClean(t, s, rows, m) && m > 0
    requires |SyncTo(costs, s, rows, m - 1).0.journal| < n <= |SyncTo(costs, s, rows, m).0.journal|
    ensures SyncCutAt(costs, s, rows, c, a) && c.turn <= m
    ensures a.journal == SyncTo(costs, s, rows, m).0.journal[..n]
    ensures Reaches(costs, t, run, Trail(t, s, a))
  {
    assert SyncTo(costs, s, rows, m - 1).1.None?;
    assert Workable(SyncTo(costs, s, rows, m - 1).0, rows) by { TurnBegins(costs, start, s, rows, m); }
    c, a := CutOfTurn(costs, s, rows, m, n);
    run := TurnStateShadowed(costs, start, t, s, rows, m, a);
  }

  lemma {:induction false} SyncCut(costs: CostModel, start: Balance, t: Session, s: Session, rows: seq<Row>, m: nat, n: nat)
    returns (c: Cut, a: Session, run: seq<Event>)
    requires Ready(costs, start, s, rows) && Shadows(t, s) && AllClean(t, s, rows, m)
    requires |s.journal| <= n <= |SyncTo(costs, s, rows, m).0.journal|
    ensures SyncCutAt(costs, s, rows, c, a) && c.turn <= m
    ensures a.journal == SyncTo(costs, s, rows, m).0.journal[..n]
    ensures Reaches(costs, t, run, Trail(t, s, a))
  {
    if m == 0 {
      c, a, run := BetweenTurns(0), s, [];
      TrailSelf(t, s);
    } else {
      SyncToJournal(costs, s, rows, m);
      if n <= |SyncTo(costs, s, rows, m - 1).0.journal| {
        c, a, run := SyncCut(costs, start, t, s, rows, m - 1, n);
      } else {
        c, a, run := LastTurnCut(costs, start, t, s, rows, m, n);
      }
    }
  }

  /** The cut at n records of a reconcile whose second loop went through m orders. Before them no fill went on top of an
      amount the session t does not have; then what t describes there is reached by a run of enabled actions. */
  lemma FindCutTo(costs: CostModel, start: Balance, t: Session, s: Session, rows: seq<Row>, m: nat, n: nat)
    returns (c: Cut, a: Session, run: seq<Event>)
    requires Ready(costs, start, s, rows) && Lawful(start, t) && Shadows(t, s) && m <= s.seqNo
    requires AllClean(Midway(costs, t, rows), Midway(costs, s, rows), rows, m)
    requires |s.journal| <= n <= |SyncTo(costs, Midway(costs, s, rows), rows, m).0.journal|
    ensures CutState(costs, s, rows, c, a) && Ready(costs, start, a, rows) && (c.InAdoption? || c.turn <= m)
    ensures a.journal == SyncTo(costs, Midway(costs, s, rows), rows, m).0.journal[..n]
    ensures Reaches(costs, t, run, Trail(t, s, a))
  {
    var midT, mid := Midway(costs, t, rows), Midway(costs, s, rows);
    MidwayIsReady(costs, start, s, rows);
    AdoptToShadowed(costs, t, s, rows, s.seqNo);
    SyncToJournal(costs, mid, rows, m);
    if n <= |mid.journal| {
      var k := AdoptionCut(costs, s, rows, s.seqNo, n);
      AdoptToLawful(costs, start, s, rows, k);
      c, a := InAdoption(k), AdoptTo(costs, s, rows, k).0;
      assert SameCore(a, a);
      AdoptionTrail(costs, t, s, rows, k);
      run := AdoptToRuns(costs, start, t, rows, k);
    } else {
      var more;
      c, a, more := SyncCut(costs, start, midT, mid, rows, m, n);
      SyncCutReady(costs, start, mid, rows, c, a);
      run := AdoptToRuns(costs, start, t, rows, s.seqNo);
      MidwayTrail(costs, t, s, rows, a);
      ReachesOn(costs, t, run, midT, more, Trail(t, s, a));
      run := run + more;
    }
  }

  lemma MidwayTrail(costs: CostModel, t: Session, s: Session, rows: seq<Row>, a: Session)
    requires Shadows(t, s)
    ensures Trail(Midway(costs, t, rows), Midway(costs, s, rows), a) == Trail(t, s, a)
  {
    AdoptKeepsFills(costs, t, rows, s.seqNo);
    AdoptKeepsFills(costs, s, rows, s.seqNo);
    TrailReads(t, s, Midway(costs, t, rows), Midway(costs, s, rows), a);
  }

  /** Every prefix of the journal that ends inside a reconcile, whatever its list, is the journal of one of its cuts. The
      memory there is lawful, and what the records describe there is reached by a run of enabled actions. */
  lemma FindCut(costs: CostModel, start: Balance, s: Session, rows: seq<Row>, n: nat)
    returns (c: Cut, a: Session, run: seq<Event>)
    requires Ready(costs, start, s, rows)
    requires |s.journal| <= n <= |Reconcile(costs, s, rows).0.journal|
    ensures CutState(costs, s, rows, c, a) && Ready(costs, start, a, rows)
    ensures a.journal == Reconcile(costs, s, rows).0.journal[..n]
    ensures Reaches(costs, s, run, Trail(s, s, a))
  {
    c, a, run := FindCutTo(costs, start, s, s, rows, s.seqNo, n);
  }

  lemma AdoptionTrail(costs: CostModel, t: Session, s: Session, rows: seq<Row>, k: nat)
    requires Shadows(t, s)
    ensures Trail(t, s, AdoptTo(costs, s, rows, k).0) == AdoptTo(costs, t, rows, k).0
  {
    AdoptToShadowed(costs, t, s, rows, k);
    AdoptKeepsFills(costs, t, rows, k);
    AdoptKeepsFills(costs, s, rows, k);
    TrailIs(t, s, AdoptTo(costs, s, rows, k).0, AdoptTo(costs, t, rows, k).0);
  }

  lemma ProgressExclusive(later: Orders, mid: Orders)
    requires Progressed(later, mid) && Exclusive(mid) && NoPending(later)
    ensures Exclusive(later)
  {
    ProgressKeepsKeys(later, mid);
  }

  lemma SyncCutReady(costs: CostModel, start: Balance, s: Session, rows: seq<Row>, c: Cut, a: Session)
    requires Ready(costs, start, s, rows) && SyncCutAt(costs, s, rows, c, a)
    ensures Ready(costs, start, a, rows)
  {
    if c.BetweenTurns? {
      SyncToSteady(costs, start, s, rows, c.turn);
      SyncToSettles(costs, start, s, rows, c.turn);
    } else {
      InTurnSteady(costs, start, s, rows, a, c.turn);
      CutInTurnProgress(costs, start, s, rows, a, c.turn);
    }
    ProgressExclusive(a.orders, s.orders);
  }

  lemma InTurnSteady(costs: CostModel, start: Balance, s: Session, rows: seq<Row>, a: Session, k: nat)
    requires Ready(costs, start, s, rows) && CutInTurn(costs, s, rows, a, k)
    ensures Steady(start, a)
  {
    var t := SyncTo(costs, s, rows, k - 1).0;
    SyncToSteady(costs, start, s, rows, k - 1);
    SyncToUnfolds(costs, s, rows, k);
    SyncRowQuiet(costs, t, rows, k);
    FillPartSteady(costs, start, t, rows, k, RowFor(t.orders[k], rows).value);
  }

  predicate SameClocks(orders: Orders, after: Orders) {
    && after.Keys == orders.Keys && NoPending(after)
    && forall id :: id in orders ==> after[id].createdAt == orders[id].createdAt
  }

  lemma AdoptionClocks(costs: CostModel, start: Balance, s: Session, rows: seq<Row>, k: nat)
    requires Ready(costs, start, s, rows)
    ensures SameClocks(s.orders, AdoptTo(costs, s, rows, k).0.orders)
  {
    LoopDecidesAtOnce(costs, s, rows, k);
  }

  lemma SyncClocks(costs: CostModel, start: Balance, s: Session, rows: seq<Row>, k: nat)
    requires Ready(costs, start, s, rows) && SyncTo(costs, s, rows, k).1.None?
    ensures SameClocks(s.orders, SyncTo(costs, s, rows, k).0.orders)
  {
    SyncToSettles(costs, start, s, rows, k);
    SyncToKeeps(costs, start, s, rows, k);
  }

  lemma TurnClocks(costs: CostModel, start: Balance, s: Session, rows: seq<Row>, a: Session, k: nat)
    requires Ready(costs, start, s, rows) && CutInTurn(costs, s, rows, a, k)
    ensures SameClocks(s.orders, a.orders)
  {
    CutInTurnProgress(costs, start, s, rows, a, k);
  }

  /** A cut changes neither the set of orders nor their creation times, and has nothing in flight. */
  lemma CutClock(costs: CostModel, start: Balance, s: Session, rows: seq<Row>, c: Cut, a: Session)
    requires Ready(costs, start, s, rows) && CutState(costs, s, rows, c, a)
    ensures SameClocks(s.orders, a.orders)
  {
    var mid := Midway(costs, s, rows);
    AdoptionClocks(costs, start, s, rows, s.seqNo);
    assert Ready(costs, start, mid, rows) by { MidwayIsReady(costs, start, s, rows); }
    if c.InAdoption? {
      AdoptionClocks(costs, start, s, rows, c.turn);
    } else if c.BetweenTurns? {
      SyncClocks(costs, start, mid, rows, c.turn);
    } else {
      TurnClocks(costs, start, mid, rows, a, c.turn);
    }
  }

  // ---------------------------------------------------------------- the theorem

  /** Each submit read the clock once: the recorded timestamp is the creation time in memory. */
  predicate OneClock(s: Session) {
    forall k :: 0 <= k < |s.journal| && s.journal[k].IntentRecord? && s.journal[k].id in s.orders ==>
      s.journal[k].ts == s.orders[s.journal[k].id].createdAt
  }

  /** A replayed order carries the timestamp of an intent record with its id. */
  lemma {:induction false} ReplayedClock(records: seq<Record>, id: nat) returns (k: nat)
    requires ReplayOrders(records).Success? && id in ReplayOrders(records).value
    ensures k < |records| && records[k].IntentRecord? && records[k].id == id
    ensures ReplayOrders(records).value[id].createdAt == records[k].ts
  {
    ReplayGrows(records);
    var init, last := records[..|records| - 1], records[|records| - 1];
    if id in ReplayOrders(init).value {
      k := ReplayedClock(init, id);
    } else {
      k := |records| - 1;
    }
  }

  lemma ClockAtCut(costs: CostModel, start: Balance, s: Session, a: Session)
    requires Rebuilds(costs, start, a) && OneClock(s) && NoPending(a.orders)
    requires s.journal <= a.journal && a.orders.Keys == s.orders.Keys
    requires forall id :: id in s.orders ==> a.orders[id].createdAt == s.orders[id].createdAt
    requires forall k :: |s.journal| <= k < |a.journal| ==> !a.journal[k].IntentRecord?
    ensures Resume(costs, a.journal).Some? && Resume(costs, a.journal).value.orders == Visible(a.orders)
  {
    RestoreContinues(costs, start, a);
    var r := Resume(costs, a.journal).value;
    forall id | id in r.orders
      ensures r.orders[id] == a.orders[id]
    {
      var k := ReplayedClock(a.journal, id);
      assert a.journal[k] == s.journal[k];
    }
  }

  lemma {:induction false} AdoptToPlain(costs: CostModel, s: Session, rows: seq<Row>, m: nat)
    ensures forall k :: |s.journal| <= k < |AdoptTo(costs, s, rows, m).0.journal| ==>
              !OpensOrder(AdoptTo(costs, s, rows, m).0.journal[k])
  {
    if m > 0 {
      AdoptToPlain(costs, s, rows, m - 1);
    }
  }

  lemma {:induction false} SyncToPlain(costs: CostModel, s: Session, rows: seq<Row>, m: nat)
    ensures s.journal <= SyncTo(costs, s, rows, m).0.journal
    ensures forall k :: |s.journal| <= k < |SyncTo(costs, s, rows, m).0.journal| ==>
              !OpensOrder(SyncTo(costs, s, rows, m).0.journal[k])
  {
    if m > 0 {
      SyncToPlain(costs, s, rows, m - 1);
      TurnAppends(costs, SyncTo(costs, s, rows, m - 1).0, rows, m);
    }
  }

  /** A reconcile only appends to the journal, and never a record that opens an order. */
  lemma ReconcilePlain(costs: CostModel, s: Session, rows: seq<Row>)
    ensures OpensNone(s.journal, Reconcile(costs, s, rows).0.journal)
  {
    AdoptToJournal(costs, s, rows, s.seqNo);
    AdoptToPlain(costs, s, rows, s.seqNo);
    SyncToPlain(costs, Midway(costs, s, rows), rows, s.seqNo);
  }

  /** Cut after n records, restored from them and run again on the same snapshot, the reconcile ends with the orders,
      ledger and error of the uninterrupted one. */
  ghost predicate SameAfterCut(costs: CostModel, s: Session, rows: seq<Row>, n: nat)
    requires n <= |Reconcile(costs, s, rows).0.journal|
  {
    var full := Reconcile(costs, s, rows);
    var back := Resume(costs, full.0.journal[..n]);
    && back.Some?
    && var again := Reconcile(costs, back.value, rows);
       && again.0.orders == Visible(full.0.orders)
       && again.0.ledger == full.0.ledger
       && again.1 == full.1
  }

  lemma CutDiffers(costs: CostModel, s: Session, rows: seq<Row>, durable: seq<Record>, r: Session)
    requires durable <= Reconcile(costs, s, rows).0.journal && Resume(costs, durable) == Some(r)
    requires Reconcile(costs, r, rows).0.orders != Visible(Reconcile(costs, s, rows).0.orders)
    ensures !SameAfterCut(costs, s, rows, |durable|)
  {
    assert Reconcile(costs, s, rows).0.journal[..|durable|] == durable;
  }

  /** The session a restart builds at a cut is what the records describe there, without the refused orders. */
  lemma RestartAtCut(costs: CostModel, start: Balance, t: Session, s: Session, rows: seq<Row>, n: nat, c: Cut, a: Session)
    requires Ready(costs, start, s, rows) && OneClock(s) && CutState(costs, s, rows, c, a) && Inv(costs, start, Trail(t, s, a))
    requires |s.journal| <= n <= |Reconcile(costs, s, rows).0.journal|
    requires a.journal == Reconcile(costs, s, rows).0.journal[..n]
    ensures Restarts(costs, start, Trail(t, s, a))
  {
    var x := Trail(t, s, a);
    assert SameClocks(s.orders, x.orders) by {
      CutClock(costs, start, s, rows, c, a);
      TrailClocks(t, s, a);
    }
    assert OpensNone(s.journal, x.journal) by {
      ReconcilePlain(costs, s, rows);
      PrefixPlain(s.journal, Reconcile(costs, s, rows).0.journal, n);
    }
    RestartAt(costs, start, s, x);
  }

  predicate OpensNone(before: seq<Record>, after: seq<Record>) {
    before <= after && forall k :: |before| <= k < |after| ==> !OpensOrder(after[k])
  }

  lemma PrefixPlain(before: seq<Record>, after: seq<Record>, n: nat)
    requires OpensNone(before, after) && |before| <= n <= |after|
    ensures OpensNone(before, after[..n])
  {
  }

  lemma TrailClocks(t: Session, s: Session, a: Session)
    requires SameClocks(s.orders, a.orders)
    ensures SameClocks(s.orders, Trail(t, s, a).orders)
  {
  }

  /** A restart gives back this session, without the refused orders. */
  ghost predicate Restarts(costs: CostModel, start: Balance, x: Session) {
    && Resume(costs, x.journal).Some?
    && var r := Resume(costs, x.journal).value;
       r.orders == Visible(x.orders) && Continues(r, x) && Inv(costs, start, r)
  }

  lemma RestartAt(costs: CostModel, start: Balance, s: Session, x: Session)
    requires Inv(costs, start, x) && OneClock(s) && SameClocks(s.orders, x.orders) && OpensNone(s.journal, x.journal)
    ensures Restarts(costs, start, x)
  {
    assert Resume(costs, x.journal).Some? && Resume(costs, x.journal).value.orders == Visible(x.orders) by {
      ClockAtCut(costs, start, s, x);
    }
    CrashInv(costs, start, x);
  }
}
