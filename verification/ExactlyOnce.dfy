/** A reconcile cut after any of its journal records, restored and run again on the same snapshot,
    ends where the uninterrupted reconcile ends: every fill is applied exactly once. */
module ExactlyOnce {
  import opened Contracts
  import opened Accounting
  import opened Recovery
  import opened Sessions
  import opened Invariants
  import opened Reconciling
  import opened Adoption

  /** Sessions that differ at most in journal and send times. */
  predicate SameCore(a: Session, b: Session) {
    a.orders == b.orders && a.ledger == b.ledger && a.seqNo == b.seqNo
  }

  // ---------------------------------------------------------------- the first loop again

  /** An order in doubt the loop did not give a number to has at least the candidates it had. */
  lemma SpectatorKeepsCandidates(orders: Orders, rows: seq<Row>, n: nat, id: nat)
    requires GoodSnapshot(rows) && OneUnsurePerKey(orders)
    requires id in orders && orders[id].status.Unknown?
    requires 1 <= id <= n ==> |Candidates(orders[id], rows, Known(orders))| != 1
    ensures |Candidates(orders[id], rows, Known(Adopted(orders, rows, n)))| >= |Candidates(orders[id], rows, Known(orders))|
  {
    var after := Adopted(orders, rows, n);
    forall k | 0 <= k < |rows| && Matches(orders[id], rows[k]) && rows[k].no in Known(after)
      ensures rows[k].no in Known(orders)
    {
      if rows[k].no !in Known(orders) {
        ClaimedOnlyByItself(orders, rows, n, id, k);
      }
    }
    CandidatesShrink(orders[id], rows, Known(after), Known(orders));
  }

  /** No row that matches an order with at most one candidate is set free. */
  lemma NothingFreedFor(orders: Orders, rows: seq<Row>, n: nat, id: nat)
    requires Repeatable(orders, rows)
    requires id in orders && orders[id].status.Unknown? && |Candidates(orders[id], rows, Known(orders))| <= 1
    ensures forall k :: 0 <= k < |rows| && Matches(orders[id], rows[k]) && rows[k].no in Known(orders) ==>
              rows[k].no in Known(Adopted(orders, rows, n))
  {
    forall k | 0 <= k < |rows| && Matches(orders[id], rows[k]) && rows[k].no in Known(orders)
      ensures rows[k].no in Known(Adopted(orders, rows, n))
    {
      if rows[k].no !in Known(Adopted(orders, rows, n)) {
        var j := FreedOnlyByReplacement(orders, rows, n, rows[k].no);
      }
    }
  }

  lemma SameCandidates(orders: Orders, rows: seq<Row>, n: nat, id: nat)
    requires GoodSnapshot(rows) && Repeatable(orders, rows) && OneUnsurePerKey(orders)
    requires id in orders && orders[id].status.Unknown? && |Candidates(orders[id], rows, Known(orders))| <= 1
    requires 1 <= id <= n ==> |Candidates(orders[id], rows, Known(orders))| != 1
    ensures Candidates(orders[id], rows, Known(Adopted(orders, rows, n))) == Candidates(orders[id], rows, Known(orders))
  {
    var after := Adopted(orders, rows, n);
    NothingFreedFor(orders, rows, n, id);
    forall k | 0 <= k < |rows| && Matches(orders[id], rows[k])
      ensures rows[k].no in Known(after) <==> rows[k].no in Known(orders)
    {
      if rows[k].no in Known(after) && rows[k].no !in Known(orders) {
        ClaimedOnlyByItself(orders, rows, n, id, k);
      }
    }
    CandidatesUnmoved(orders[id], rows, Known(after), Known(orders));
  }

  /** The row an order just took is its only one, so it has no candidate left. */
  lemma TakenOrderHasNone(orders: Orders, rows: seq<Row>, n: nat, id: nat)
    requires GoodSnapshot(rows) && Repeatable(orders, rows)
    requires id in orders && orders[id].status.Unknown? && 1 <= id <= n
    requires |Candidates(orders[id], rows, Known(orders))| == 1
    ensures Candidates(orders[id], rows, Known(Adopted(orders, rows, n))) == []
  {
    var after := Adopted(orders, rows, n);
    var c := Candidates(orders[id], rows, Known(orders))[0];
    CandidateFacts(orders[id], rows, Known(orders), 0);
    assert c.no in Known(after) by {
      var k :| 0 <= k < |rows| && rows[k] == c;
      assert after[id].Numbered() && after[id].ref.no.value == c.no;
    }
    NothingFreedFor(orders, rows, n, id);
    ClaimedCandidateGone(orders[id], rows, Known(orders), Known(after));
  }

  lemma DecidedAgain(orders: Orders, rows: seq<Row>, k: nat, n: nat, id: nat)
    requires GoodSnapshot(rows) && Repeatable(orders, rows) && OneUnsurePerKey(orders) && k <= n && id in orders
    ensures var mid := Adopted(orders, rows, k);
            Decided(mid[id], rows, Known(mid), 1 <= id <= n) == Decided(orders[id], rows, Known(orders), 1 <= id <= n)
  {
    var mid := Adopted(orders, rows, k);
    if orders[id].status.Unknown? {
      var found := Candidates(orders[id], rows, Known(orders));
      CandidatesReadIntent(mid[id], orders[id], rows, Known(mid));
      if 1 <= id <= k && |found| == 1 {
        TakenOrderHasNone(orders, rows, k, id);
      } else if |found| <= 1 {
        SameCandidates(orders, rows, k, id);
      } else {
        SpectatorKeepsCandidates(orders, rows, k, id);
      }
    }
  }

  /** Running the first loop again after a cut at k picks up where it stopped. */
  lemma AdoptAgain(orders: Orders, rows: seq<Row>, k: nat, n: nat)
    requires GoodSnapshot(rows) && Repeatable(orders, rows) && OneUnsurePerKey(orders) && k <= n
    ensures Adopted(Adopted(orders, rows, k), rows, n) == Adopted(orders, rows, n)
  {
    forall id | id in orders
      ensures Adopted(Adopted(orders, rows, k), rows, n)[id] == Adopted(orders, rows, n)[id]
    {
      DecidedAgain(orders, rows, k, n, id);
    }
  }

  /** Orders that differ from others only in status and fill, with nobody newly in doubt. */
  predicate Progressed(later: Orders, mid: Orders) {
    && later.Keys == mid.Keys
    && forall id :: id in mid ==>
         && later[id] == mid[id].(status := later[id].status, filledQty := later[id].filledQty, filledAmount := later[id].filledAmount)
         && (later[id].status.Unknown? ==> mid[id].status.Unknown?)
  }

  lemma ProgressKeepsKnown(later: Orders, mid: Orders)
    requires Progressed(later, mid)
    ensures Known(later) == Known(mid)
  {
    assert forall id :: id in mid ==> later[id].ref == mid[id].ref;
  }

  /** After the whole first loop nothing is left to adopt, also while the second loop makes progress. */
  lemma NothingLeftToAdopt(orders: Orders, rows: seq<Row>, n: nat, later: Orders)
    requires GoodSnapshot(rows) && Repeatable(orders, rows) && OneUnsurePerKey(orders)
    requires Progressed(later, Adopted(orders, rows, n))
    ensures Adopted(later, rows, n) == later
  {
    var mid := Adopted(orders, rows, n);
    AdoptAgain(orders, rows, n, n);
    ProgressKeepsKnown(later, mid);
    forall id | id in later
      ensures Decided(later[id], rows, Known(later), 1 <= id <= n) == later[id]
    {
      CandidatesReadIntent(later[id], mid[id], rows, Known(mid));
      assert Decided(mid[id], rows, Known(mid), 1 <= id <= n) == Adopted(mid, rows, n)[id] == mid[id];
      var found := Candidates(mid[id], rows, Known(mid));
      if 1 <= id <= n && later[id].status.Unknown? && |found| == 1 {
        assert mid[id].ref == RefOf(found[0]);
        CandidateFacts(mid[id], rows, Known(mid), 0);
      }
    }
  }

  // ---------------------------------------------------------------- the second loop again

  /** The second loop reads and writes only orders and ledger. */
  lemma SyncReadsCore(costs: CostModel, a: Session, b: Session, rows: seq<Row>, id: nat)
    requires SameCore(a, b)
    ensures SameCore(SyncOne(costs, a, rows, id).0, SyncOne(costs, b, rows, id).0)
    ensures SyncOne(costs, a, rows, id).1 == SyncOne(costs, b, rows, id).1
  {
    if id in a.orders && RowFor(a.orders[id], rows).Some? {
      FillPartReadsCore(costs, a, b, id, RowFor(a.orders[id], rows).value);
    }
  }

  lemma FillPartReadsCore(costs: CostModel, a: Session, b: Session, id: nat, row: Row)
    requires SameCore(a, b) && id in a.orders
    ensures SameCore(FillPart(costs, a, id, row), FillPart(costs, b, id, row)) && id in FillPart(costs, a, id, row).orders
  {
  }

  /** The order has nothing more to learn from the snapshot. */
  predicate Settled(o: Order, rows: seq<Row>) {
    RowFor(o, rows).Some? ==> Synced(o, rows, RowFor(o, rows).value) && o.filledQty <= o.intent.qty
  }

  lemma SettledIsQuiet(costs: CostModel, s: Session, rows: seq<Row>, id: nat)
    requires id in s.orders ==> Settled(s.orders[id], rows)
    ensures SyncOne(costs, s, rows, id) == (s, None)
  {
    if id in s.orders && RowFor(s.orders[id], rows).Some? {
      var o, row := s.orders[id], RowFor(s.orders[id], rows).value;
      RowOfFacts(rows, o.ref.no.value);
      assert o.(filledAmount := row.filledAmount) == o;
      assert s.orders[id := o] == s.orders;
    }
  }

  lemma SyncSettles(costs: CostModel, s: Session, rows: seq<Row>, id: nat)
    requires Shape(s) && AllCovered(s.orders, s.ledger, s.seqNo) && NoPending(s.orders) && NamedRows(rows)
    requires id in s.orders && SyncOne(costs, s, rows, id).1.None?
    ensures Settled(SyncOne(costs, s, rows, id).0.orders[id], rows)
    ensures SyncOne(costs, s, rows, id).0.orders[id].status.Unknown? ==> s.orders[id].status.Unknown?
  {
    if RowFor(s.orders[id], rows).Some? {
      SyncRowQuiet(costs, s, rows, id);
      FillPartOrders(costs, s, rows, id, RowFor(s.orders[id], rows).value);
    }
  }

  /** A turn cut between its fill record and its status record is completed by the next turn. */
  lemma HalfSyncCompletes(costs: CostModel, s: Session, rows: seq<Row>, id: nat, row: Row)
    requires Shape(s) && AllCovered(s.orders, s.ledger, s.seqNo) && NoPending(s.orders) && NamedRows(rows)
    requires id in s.orders && RowFor(s.orders[id], rows) == Some(row)
    requires SyncOne(costs, s, rows, id).1.None?
    ensures SameCore(SyncOne(costs, FillPart(costs, s, id, row), rows, id).0, SyncOne(costs, s, rows, id).0)
    ensures SyncOne(costs, FillPart(costs, s, id, row), rows, id).1.None?
  {
    SyncRowQuiet(costs, s, rows, id);
    FillPartOrders(costs, s, rows, id, row);
    RowOfFacts(rows, s.orders[id].ref.no.value);
    var half := FillPart(costs, s, id, row);
    var o := half.orders[id];
    assert RowFor(o, rows) == Some(row);
    assert half.orders[id := o] == half.orders;
    assert FillPart(costs, half, id, row) == half;
  }

  /** A reconcile, or its second loop, may begin: lawful memory, nothing in flight, a reliable snapshot. */
  ghost predicate Ready(costs: CostModel, start: Balance, s: Session, rows: seq<Row>) {
    SoundCosts(costs) && Lawful(start, s) && NoPending(s.orders) && GoodSnapshot(rows)
  }

  /** What a turn of the second loop needs to know of the session. */
  ghost predicate Workable(s: Session, rows: seq<Row>) {
    Shape(s) && AllCovered(s.orders, s.ledger, s.seqNo) && NoPending(s.orders) && NamedRows(rows)
  }

  lemma SyncToKeeps(costs: CostModel, start: Balance, s: Session, rows: seq<Row>, n: nat)
    requires Ready(costs, start, s, rows)
    ensures var t := SyncTo(costs, s, rows, n).0;
            && Workable(t, rows)
            && t.seqNo == s.seqNo && t.orders.Keys == s.orders.Keys
            && (forall k :: k in s.orders && k > n ==> t.orders[k] == s.orders[k])
  {
    SyncToSteady(costs, start, s, rows, n);
  }

  predicate SettledTo(orders: Orders, rows: seq<Row>, n: int) {
    forall id :: id in orders && 1 <= id <= n ==> Settled(orders[id], rows)
  }

  lemma TurnProgresses(costs: CostModel, mid: Orders, s: Session, rows: seq<Row>, n: nat)
    requires Workable(s, rows) && Progressed(s.orders, mid) && SettledTo(s.orders, rows, n - 1)
    requires SyncOne(costs, s, rows, n).1.None?
    ensures Progressed(SyncOne(costs, s, rows, n).0.orders, mid)
    ensures SettledTo(SyncOne(costs, s, rows, n).0.orders, rows, n)
  {
    SyncOneFrame(costs, s, rows, n);
    if n in s.orders {
      SyncSettles(costs, s, rows, n);
    }
  }

  /** While nothing has been raised, every order passed is settled and nobody is newly in doubt. */
  lemma {:induction false} SyncToSettles(costs: CostModel, start: Balance, s: Session, rows: seq<Row>, n: nat)
    requires Ready(costs, start, s, rows) && SyncTo(costs, s, rows, n).1.None?
    ensures Progressed(SyncTo(costs, s, rows, n).0.orders, s.orders)
    ensures SettledTo(SyncTo(costs, s, rows, n).0.orders, rows, n)
  {
    if n > 0 {
      SyncToSettles(costs, start, s, rows, n - 1);
      SyncToKeeps(costs, start, s, rows, n - 1);
      TurnProgresses(costs, s.orders, SyncTo(costs, s, rows, n - 1).0, rows, n);
    }
  }

  /** Running the second loop again over orders that are settled up to k changes nothing up to k. */
  lemma {:induction false} QuietPrefix(costs: CostModel, a: Session, rows: seq<Row>, k: nat)
    requires SettledTo(a.orders, rows, k)
    ensures SyncTo(costs, a, rows, k) == (a, None)
  {
    if k > 0 {
      QuietPrefix(costs, a, rows, k - 1);
      SettledIsQuiet(costs, a, rows, k);
    }
  }

  lemma {:induction false} SameTail(costs: CostModel, a: Session, b: Session, rows: seq<Row>, k: nat, n: nat)
    requires k <= n
    requires SameCore(SyncTo(costs, a, rows, k).0, SyncTo(costs, b, rows, k).0)
    requires SyncTo(costs, a, rows, k).1 == SyncTo(costs, b, rows, k).1
    ensures SameCore(SyncTo(costs, a, rows, n).0, SyncTo(costs, b, rows, n).0)
    ensures SyncTo(costs, a, rows, n).1 == SyncTo(costs, b, rows, n).1
  {
    if k < n {
      SameTail(costs, a, b, rows, k, n - 1);
      SyncReadsCore(costs, SyncTo(costs, a, rows, n - 1).0, SyncTo(costs, b, rows, n - 1).0, rows, n);
    }
  }

  /** Cut between two turns of the second loop. */
  lemma ResyncBetweenTurns(costs: CostModel, start: Balance, s: Session, rows: seq<Row>, a: Session, k: nat, n: nat)
    requires Ready(costs, start, s, rows) && k <= n
    requires SyncTo(costs, s, rows, k).1.None? && SameCore(a, SyncTo(costs, s, rows, k).0)
    ensures SameCore(SyncTo(costs, a, rows, n).0, SyncTo(costs, s, rows, n).0)
    ensures SyncTo(costs, a, rows, n).1 == SyncTo(costs, s, rows, n).1
  {
    SyncToSettles(costs, start, s, rows, k);
    QuietPrefix(costs, a, rows, k);
    SameTail(costs, a, s, rows, k, n);
  }

  /** The state a crash leaves inside turn k of the second loop, after its fill record. */
  ghost predicate CutInTurn(costs: CostModel, s: Session, rows: seq<Row>, a: Session, k: nat) {
    && k > 0 && SyncTo(costs, s, rows, k).1.None?
    && var t := SyncTo(costs, s, rows, k - 1).0;
       && k in t.orders && RowFor(t.orders[k], rows).Some?
       && RowFor(t.orders[k], rows).value.filledQty > t.orders[k].filledQty
       && SameCore(a, FillPart(costs, t, k, RowFor(t.orders[k], rows).value))
  }

  /** The turn that was cut: the settled orders before it stay quiet and it completes. */
  lemma CutTurnCompletes(costs: CostModel, t: Session, rows: seq<Row>, a: Session, k: nat, row: Row)
    requires Workable(t, rows) && k > 0 && SettledTo(t.orders, rows, k - 1)
    requires k in t.orders && RowFor(t.orders[k], rows) == Some(row)
    requires SyncOne(costs, t, rows, k).1.None? && SameCore(a, FillPart(costs, t, k, row))
    ensures SyncTo(costs, a, rows, k - 1) == (a, None)
    ensures SameCore(SyncOne(costs, a, rows, k).0, SyncOne(costs, t, rows, k).0)
    ensures SyncOne(costs, a, rows, k).1.None?
  {
    assert SyncTo(costs, a, rows, k - 1) == (a, None) by {
      HalfTurnSettled(costs, t, rows, a, k, row);
      QuietPrefix(costs, a, rows, k - 1);
    }
    HalfTurnCompletes(costs, t, rows, a, k, row);
  }

  lemma HalfTurnSettled(costs: CostModel, t: Session, rows: seq<Row>, a: Session, k: nat, row: Row)
    requires Workable(t, rows) && k > 0 && SettledTo(t.orders, rows, k - 1)
    requires k in t.orders && RowFor(t.orders[k], rows) == Some(row)
    requires SyncOne(costs, t, rows, k).1.None? && SameCore(a, FillPart(costs, t, k, row))
    ensures SettledTo(a.orders, rows, k - 1)
  {
    SyncRowQuiet(costs, t, rows, k);
    FillPartOrders(costs, t, rows, k, row);
  }

  lemma HalfTurnCompletes(costs: CostModel, t: Session, rows: seq<Row>, a: Session, k: nat, row: Row)
    requires Workable(t, rows) && k in t.orders && RowFor(t.orders[k], rows) == Some(row)
    requires SyncOne(costs, t, rows, k).1.None? && SameCore(a, FillPart(costs, t, k, row))
    ensures SameCore(SyncOne(costs, a, rows, k).0, SyncOne(costs, t, rows, k).0)
    ensures SyncOne(costs, a, rows, k).1.None?
  {
    HalfSyncCompletes(costs, t, rows, k, row);
    SyncReadsCore(costs, a, FillPart(costs, t, k, row), rows, k);
  }

  lemma SyncToUnfolds(costs: CostModel, s: Session, rows: seq<Row>, k: nat)
    requires k > 0 && SyncTo(costs, s, rows, k).1.None?
    ensures SyncTo(costs, s, rows, k - 1).1.None?
    ensures SyncTo(costs, s, rows, k) == SyncOne(costs, SyncTo(costs, s, rows, k - 1).0, rows, k)
  {
  }

  lemma ResyncTurn(costs: CostModel, s: Session, rows: seq<Row>, a: Session, k: nat, row: Row)
    requires k > 0 && SyncTo(costs, s, rows, k).1.None?
    requires var t := SyncTo(costs, s, rows, k - 1).0;
             && Workable(t, rows) && SettledTo(t.orders, rows, k - 1)
             && k in t.orders && RowFor(t.orders[k], rows) == Some(row)
             && SameCore(a, FillPart(costs, t, k, row))
    ensures SameCore(SyncTo(costs, a, rows, k).0, SyncTo(costs, s, rows, k).0)
    ensures SyncTo(costs, a, rows, k).1.None?
  {
    SyncToUnfolds(costs, s, rows, k);
    CutTurnCompletes(costs, SyncTo(costs, s, rows, k - 1).0, rows, a, k, row);
    assert SyncTo(costs, a, rows, k) == SyncOne(costs, a, rows, k);
  }

  /** What is known when turn k of the second loop begins. */
  lemma TurnBegins(costs: CostModel, start: Balance, s: Session, rows: seq<Row>, k: nat)
    requires Ready(costs, start, s, rows) && k > 0 && SyncTo(costs, s, rows, k - 1).1.None?
    ensures var t := SyncTo(costs, s, rows, k - 1).0;
            && Workable(t, rows) && SettledTo(t.orders, rows, k - 1)
            && Progressed(t.orders, s.orders) && t.seqNo == s.seqNo
  {
    SyncToSettles(costs, start, s, rows, k - 1);
    SyncToKeeps(costs, start, s, rows, k - 1);
  }

  lemma ResyncInTurn(costs: CostModel, start: Balance, s: Session, rows: seq<Row>, a: Session, k: nat, n: nat)
    requires Ready(costs, start, s, rows) && k <= n && CutInTurn(costs, s, rows, a, k)
    ensures SameCore(SyncTo(costs, a, rows, n).0, SyncTo(costs, s, rows, n).0)
    ensures SyncTo(costs, a, rows, n).1 == SyncTo(costs, s, rows, n).1
  {
    assert SameCore(SyncTo(costs, a, rows, k).0, SyncTo(costs, s, rows, k).0)
           && SyncTo(costs, a, rows, k).1 == SyncTo(costs, s, rows, k).1 by {
      SyncToUnfolds(costs, s, rows, k);
      TurnBegins(costs, start, s, rows, k);
      ResyncTurn(costs, s, rows, a, k, RowFor(SyncTo(costs, s, rows, k - 1).0.orders[k], rows).value);
    }
    SameTail(costs, a, s, rows, k, n);
  }

  // ---------------------------------------------------------------- the whole reconcile again

  function Midway(costs: CostModel, s: Session, rows: seq<Row>): Session { AdoptTo(costs, s, rows, s.seqNo).0 }

  lemma MidwayIsReady(costs: CostModel, start: Balance, s: Session, rows: seq<Row>)
    requires Ready(costs, start, s, rows)
    ensures Ready(costs, start, Midway(costs, s, rows), rows)
    ensures Midway(costs, s, rows).orders == Adopted(s.orders, rows, s.seqNo)
    ensures Midway(costs, s, rows).seqNo == s.seqNo
  {
    AdoptToLawful(costs, start, s, rows, s.seqNo);
    LoopDecidesAtOnce(costs, s, rows, s.seqNo);
  }

  /** The memory of a reconcile right after one of its records. */
  datatype Cut =
    | InAdoption(turn: nat)          // after the first loop's turn
    | BetweenTurns(turn: nat)        // after the second loop's turn
    | InTurn(turn: nat)              // inside the second loop's turn, after its fill

  ghost predicate CutState(costs: CostModel, s: Session, rows: seq<Row>, c: Cut, a: Session) {
    && c.turn <= s.seqNo
    && match c
       case InAdoption(k) => SameCore(a, AdoptTo(costs, s, rows, k).0)
       case BetweenTurns(k) =>
         SyncTo(costs, Midway(costs, s, rows), rows, k).1.None? && SameCore(a, SyncTo(costs, Midway(costs, s, rows), rows, k).0)
       case InTurn(k) => CutInTurn(costs, Midway(costs, s, rows), rows, a, k)
  }

  /** The first loop run again on a session with the given orders in doubt. */
  lemma FirstLoopAgain(costs: CostModel, s: Session, rows: seq<Row>, a: Session, orders: Orders)
    requires OneUnsurePerKey(a.orders) && DistinctRows(rows) && Adopted(a.orders, rows, s.seqNo) == orders
    requires a.seqNo == s.seqNo
    ensures Midway(costs, a, rows).orders == orders
    ensures Midway(costs, a, rows).ledger == a.ledger && Midway(costs, a, rows).seqNo == a.seqNo
  {
    LoopDecidesAtOnce(costs, a, rows, a.seqNo);
  }

  lemma AgainFromAdoption(costs: CostModel, start: Balance, s: Session, rows: seq<Row>, k: nat, a: Session)
    requires Ready(costs, start, s, rows) && Repeatable(s.orders, rows) && k <= s.seqNo && SameCore(a, AdoptTo(costs, s, rows, k).0)
    ensures SameCore(Midway(costs, a, rows), Midway(costs, s, rows))
  {
    AdoptToLawful(costs, start, s, rows, k);
    LoopDecidesAtOnce(costs, s, rows, k);
    LoopDecidesAtOnce(costs, s, rows, s.seqNo);
    AdoptAgain(s.orders, rows, k, s.seqNo);
    FirstLoopAgain(costs, s, rows, a, Adopted(s.orders, rows, s.seqNo));
  }

  lemma AgainFromProgress(costs: CostModel, start: Balance, s: Session, rows: seq<Row>, a: Session)
    requires Ready(costs, start, s, rows) && Repeatable(s.orders, rows)
    requires Progressed(a.orders, Midway(costs, s, rows).orders) && OneUnsurePerKey(a.orders) && a.seqNo == s.seqNo
    ensures SameCore(Midway(costs, a, rows), a)
  {
    MidwayIsReady(costs, start, s, rows);
    NothingLeftToAdopt(s.orders, rows, s.seqNo, a.orders);
    FirstLoopAgain(costs, s, rows, a, a.orders);
  }

  lemma ProgressKeepsKeys(later: Orders, mid: Orders)
    requires Progressed(later, mid) && OneUnsurePerKey(mid) && NoPending(later)
    ensures OneUnsurePerKey(later)
  {
  }

  lemma HalfTurnProgress(costs: CostModel, mid: Orders, t: Session, rows: seq<Row>, a: Session, k: nat, row: Row)
    requires Workable(t, rows) && Progressed(t.orders, mid)
    requires k in t.orders && RowFor(t.orders[k], rows) == Some(row)
    requires SyncOne(costs, t, rows, k).1.None? && SameCore(a, FillPart(costs, t, k, row))
    ensures Progressed(a.orders, mid) && NoPending(a.orders) && a.seqNo == t.seqNo
  {
    SyncRowQuiet(costs, t, rows, k);
    FillPartOrders(costs, t, rows, k, row);
  }

  lemma CutInTurnProgress(costs: CostModel, start: Balance, mid: Session, rows: seq<Row>, a: Session, k: nat)
    requires Ready(costs, start, mid, rows) && CutInTurn(costs, mid, rows, a, k)
    ensures Progressed(a.orders, mid.orders) && NoPending(a.orders) && a.seqNo == mid.seqNo
  {
    var t := SyncTo(costs, mid, rows, k - 1).0;
    var row := RowFor(t.orders[k], rows).value;
    assert SyncOne(costs, t, rows, k).1.None? && SyncTo(costs, mid, rows, k - 1).1.None? by {
      SyncToUnfolds(costs, mid, rows, k);
    }
    TurnBegins(costs, start, mid, rows, k);
    HalfTurnProgress(costs, mid.orders, t, rows, a, k, row);
  }

  /** Run again on the same snapshot from any cut, a reconcile ends with the same orders and ledger,
      and raises the same error if it raises one. */
  lemma ReconcileAgain(costs: CostModel, start: Balance, s: Session, rows: seq<Row>, c: Cut, a: Session)
    requires Ready(costs, start, s, rows) && Repeatable(s.orders, rows) && CutState(costs, s, rows, c, a)
    ensures SameCore(Reconcile(costs, a, rows).0, Reconcile(costs, s, rows).0)
    ensures Reconcile(costs, a, rows).1 == Reconcile(costs, s, rows).1
  {
    var mid := Midway(costs, s, rows);
    MidwayIsReady(costs, start, s, rows);
    if c.InAdoption? {
      AgainFromAdoption(costs, start, s, rows, c.turn, a);
      AdoptToLawful(costs, start, s, rows, c.turn);
      SameTail(costs, Midway(costs, a, rows), mid, rows, 0, s.seqNo);
    } else if c.BetweenTurns? {
      SyncToSettles(costs, start, mid, rows, c.turn);
      SyncToKeeps(costs, start, mid, rows, c.turn);
      ProgressKeepsKeys(a.orders, mid.orders);
      AgainFromProgress(costs, start, s, rows, a);
      ResyncBetweenTurns(costs, start, mid, rows, Midway(costs, a, rows), c.turn, s.seqNo);
    } else {
      CutInTurnProgress(costs, start, mid, rows, a, c.turn);
      ProgressKeepsKeys(a.orders, mid.orders);
      AgainFromProgress(costs, start, s, rows, a);
      ResyncInTurn(costs, start, mid, rows, Midway(costs, a, rows), c.turn, s.seqNo);
    }
  }
}
