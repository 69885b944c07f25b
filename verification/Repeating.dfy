/** Exactly when a reconcile may be repeated: the two ways of running it again on one snapshot, after a crash in the
    middle and after it has ended, each with the condition under which nothing changes. */
module Repeating {
  import opened Contracts
  import opened Accounting
  import opened Recovery
  import opened Sessions
  import opened Invariants
  import opened Reconciling
  import opened Adoption
  import opened ExactlyOnce
  import opened Restating
  import opened RestartedReconcile
  import opened Operations
  import opened CatchingUp

  // ---------------------------------------------------------------- candidates, one by one

  lemma {:induction false} CandidateMember(o: Order, rows: seq<Row>, known: set<string>, k: nat)
    requires k < |rows| && Matches(o, rows[k]) && rows[k].no !in known
    ensures rows[k] in Candidates(o, rows, known)
  {
    if k < |rows| - 1 {
      CandidateMember(o, rows[..|rows| - 1], known, k);
    }
  }

  lemma {:induction false} NoCandidate(o: Order, rows: seq<Row>, known: set<string>)
    requires forall i :: 0 <= i < |rows| && Matches(o, rows[i]) ==> rows[i].no in known
    ensures Candidates(o, rows, known) == []
  {
    if rows != [] {
      NoCandidate(o, rows[..|rows| - 1], known);
    }
  }

  lemma {:induction false} OnlyCandidate(o: Order, rows: seq<Row>, known: set<string>, k: nat)
    requires k < |rows| && Matches(o, rows[k]) && rows[k].no !in known
    requires forall i :: 0 <= i < |rows| && i != k && Matches(o, rows[i]) ==> rows[i].no in known
    ensures Candidates(o, rows, known) == [rows[k]]
  {
    var init := rows[..|rows| - 1];
    if k == |rows| - 1 {
      NoCandidate(o, init, known);
    } else {
      OnlyCandidate(o, init, known, k);
    }
  }

  lemma TwoCandidates(o: Order, rows: seq<Row>, known: set<string>, i: nat, k: nat)
    requires i < |rows| && k < |rows| && rows[i] != rows[k]
    requires Matches(o, rows[i]) && Matches(o, rows[k]) && rows[i].no !in known && rows[k].no !in known
    ensures |Candidates(o, rows, known)| >= 2
  {
    CandidateMember(o, rows, known, i);
    CandidateMember(o, rows, known, k);
  }

  // ---------------------------------------------------------------- a cut that is decided otherwise

  /** Row k bears the number that order j is about to give up, and matches order id. */
  predicate Tempts(orders: Orders, rows: seq<Row>, id: nat, j: nat, k: nat) {
    && id in orders && orders[id].status.Unknown? && j in orders && Replaceable(orders, rows, j)
    && k < |rows| && Matches(orders[id], rows[k]) && rows[k].no == orders[j].ref.no.value
  }

  /** The first order whose replacement tempts this one. */
  lemma {:induction false} FirstTempter(orders: Orders, rows: seq<Row>, id: nat, j0: nat, k0: nat) returns (j: nat, k: nat)
    requires Tempts(orders, rows, id, j0, k0)
    ensures Tempts(orders, rows, id, j, k)
    ensures forall j', k' :: Tempts(orders, rows, id, j', k') ==> j <= j'
    decreases j0
  {
    if exists j': nat, k': nat :: Tempts(orders, rows, id, j', k') && j' < j0 {
      var j': nat, k': nat :| Tempts(orders, rows, id, j', k') && j' < j0;
      j, k := FirstTempter(orders, rows, id, j', k');
    } else {
      j, k := j0, k0;
    }
  }

  /** When the first tempter's turn has passed, its row is the only matching one set free. */
  lemma OnlyRowFreed(orders: Orders, rows: seq<Row>, id: nat, j: nat, k: nat, i: nat)
    requires Exclusive(orders) && GoodSnapshot(rows) && Tempts(orders, rows, id, j, k) && j > 0
    requires forall j', k' :: Tempts(orders, rows, id, j', k') ==> j <= j'
    requires i < |rows| && Matches(orders[id], rows[i]) && rows[i].no in Known(orders)
    ensures rows[i].no in Known(Adopted(orders, rows, j)) <==> i != k
  {
    if i == k {
      AbandonedNumberIsFree(orders, rows, j, j);
    } else if rows[i].no !in Known(Adopted(orders, rows, j)) {
      var f := FreedOnlyByReplacement(orders, rows, j, rows[i].no);
      assert Tempts(orders, rows, id, f, i);
    }
  }

  lemma OwnRowTaken(orders: Orders, rows: seq<Row>, id: nat, n: nat, i: nat)
    requires GoodSnapshot(rows) && id in orders && orders[id].status.Unknown? && 1 <= id <= n
    requires |Candidates(orders[id], rows, Known(orders))| <= 1
    requires i < |rows| && Matches(orders[id], rows[i]) && rows[i].no !in Known(orders)
    ensures rows[i].no in Known(Adopted(orders, rows, n))
  {
    var found := Candidates(orders[id], rows, Known(orders));
    CandidateMember(orders[id], rows, Known(orders), i);
    assert found[0] == rows[i];
    var after := Adopted(orders, rows, n);
    assert after[id].Numbered() && after[id].ref.no.value == rows[i].no;
  }

  /** The number set free is the one the tempted order would take, if its turn has passed or it had no candidate. */
  lemma FreedRowIsOnly(orders: Orders, rows: seq<Row>, id: nat, j: nat, k: nat)
    requires Exclusive(orders) && GoodSnapshot(rows) && Tempts(orders, rows, id, j, k) && j > 0 && id > 0
    requires forall j', k' :: Tempts(orders, rows, id, j', k') ==> j <= j'
    requires |Candidates(orders[id], rows, Known(orders))| <= 1
    requires id <= j || |Candidates(orders[id], rows, Known(orders))| == 0
    ensures Candidates(orders[id], rows, Known(Adopted(orders, rows, j))) == [rows[k]]
  {
    var known := Known(Adopted(orders, rows, j));
    assert rows[k].no in Known(orders);
    OnlyRowFreed(orders, rows, id, j, k, k);
    forall i | 0 <= i < |rows| && i != k && Matches(orders[id], rows[i])
      ensures rows[i].no in known
    {
      if rows[i].no in Known(orders) {
        OnlyRowFreed(orders, rows, id, j, k, i);
      } else if id <= j {
        OwnRowTaken(orders, rows, id, j, i);
      } else {
        CandidateMember(orders[id], rows, Known(orders), i);
        assert false;
      }
    }
    OnlyCandidate(orders[id], rows, known, k);
  }

  lemma RowStaysOpen(orders: Orders, rows: seq<Row>, id: nat, j: nat, k: nat)
    requires Exclusive(orders) && GoodSnapshot(rows) && Tempts(orders, rows, id, j, k) && 0 < j < id
    requires forall j', k' :: Tempts(orders, rows, id, j', k') ==> j <= j'
    requires |Candidates(orders[id], rows, Known(orders))| == 1
    ensures |Candidates(orders[id], rows, Known(Adopted(orders, rows, j)))| >= 2
  {
    var known := Known(Adopted(orders, rows, j));
    assert rows[k].no in Known(orders);
    OnlyRowFreed(orders, rows, id, j, k, k);
    CandidateFacts(orders[id], rows, Known(orders), 0);
    var c := Candidates(orders[id], rows, Known(orders))[0];
    var i :| 0 <= i < |rows| && rows[i] == c;
    if c.no in known {
      ClaimedOnlyByItself(orders, rows, j, id, i);
    }
    TwoCandidates(orders[id], rows, known, i, k);
  }

  /** Run again from a cut just after the first tempter's turn, the loop leaves the tempted order with another number. */
  lemma DecidedOtherwise(orders: Orders, rows: seq<Row>, id: nat, j: nat, k: nat, n: nat)
    requires Exclusive(orders) && GoodSnapshot(rows) && Tempts(orders, rows, id, j, k) && 1 <= j <= n && 1 <= id <= n
    requires forall j', k' :: Tempts(orders, rows, id, j', k') ==> j <= j'
    requires |Candidates(orders[id], rows, Known(orders))| <= 1
    ensures Adopted(Adopted(orders, rows, j), rows, n)[id].ref != Adopted(orders, rows, n)[id].ref
  {
    var mid := Adopted(orders, rows, j);
    var found := Candidates(orders[id], rows, Known(orders));
    CandidatesReadIntent(mid[id], orders[id], rows, Known(mid));
    if |found| == 1 {
      CandidateFacts(orders[id], rows, Known(orders), 0);
    }
    assert rows[k].no in Known(orders);
    if id > j && |found| == 1 {
      RowStaysOpen(orders, rows, id, j, k);
      assert mid[id] == orders[id];
      assert orders[id].Numbered() ==> orders[id].ref.no.value in Known(orders);
    } else {
      FreedRowIsOnly(orders, rows, id, j, k);
      if |found| == 0 {
        assert id != j;
      }
    }
  }

  // ---------------------------------------------------------------- references after a reconcile

  /** The second loop leaves every broker reference and every reject code alone. */
  lemma {:induction false} SyncKeepsRefs(costs: CostModel, s: Session, rows: seq<Row>, n: nat)
    ensures SyncTo(costs, s, rows, n).0.orders.Keys == s.orders.Keys
    ensures forall id :: id in s.orders ==>
              && SyncTo(costs, s, rows, n).0.orders[id].ref == s.orders[id].ref
              && SyncTo(costs, s, rows, n).0.orders[id].reject == s.orders[id].reject
  {
    if n > 0 {
      SyncKeepsRefs(costs, s, rows, n - 1);
      TurnKeepsRefs(costs, SyncTo(costs, s, rows, n - 1).0, rows, n);
    }
  }

  lemma TurnKeepsRefs(costs: CostModel, s: Session, rows: seq<Row>, id: nat)
    ensures var t := SyncOne(costs, s, rows, id).0;
            t.orders.Keys == s.orders.Keys && forall k :: k in s.orders ==> t.orders[k].ref == s.orders[k].ref && t.orders[k].reject == s.orders[k].reject
  {
  }

  lemma ReconcileRefs(costs: CostModel, s: Session, rows: seq<Row>)
    requires OneUnsurePerKey(s.orders) && DistinctRows(rows)
    ensures Reconcile(costs, s, rows).0.orders.Keys == s.orders.Keys
    ensures forall id :: id in s.orders ==>
              Reconcile(costs, s, rows).0.orders[id].ref == Adopted(s.orders, rows, s.seqNo)[id].ref
  {
    LoopDecidesAtOnce(costs, s, rows, s.seqNo);
    SyncKeepsRefs(costs, Midway(costs, s, rows), rows, s.seqNo);
  }

  // ---------------------------------------------------------------- exactly once, exactly when

  lemma {:induction false} AdoptionPrefix(costs: CostModel, s: Session, rows: seq<Row>, k: nat, n: nat)
    requires k <= n
    ensures AdoptTo(costs, s, rows, k).0.journal <= AdoptTo(costs, s, rows, n).0.journal
  {
    if k < n {
      AdoptionPrefix(costs, s, rows, k, n - 1);
      AdoptToJournal(costs, s, rows, n);
    }
  }

  lemma CutAfterAdoption(costs: CostModel, s: Session, rows: seq<Row>, k: nat)
    requires k <= s.seqNo
    ensures s.journal <= AdoptTo(costs, s, rows, k).0.journal <= Reconcile(costs, s, rows).0.journal
  {
    AdoptToJournal(costs, s, rows, k);
    AdoptionPrefix(costs, s, rows, k, s.seqNo);
    SyncToJournal(costs, Midway(costs, s, rows), rows, s.seqNo);
  }

  /** From two memories that the loop decides differently, reconciles end differently. */
  lemma EndsDiffer(costs: CostModel, r: Session, a: Session, s: Session, rows: seq<Row>, id: nat)
    requires Seen(r, a) && OneUnsurePerKey(a.orders) && OneUnsurePerKey(s.orders) && DistinctRows(rows)
    requires r.seqNo <= a.seqNo == s.seqNo && forall k :: k in r.orders ==> k <= r.seqNo
    requires id in a.orders && id in s.orders && a.orders.Keys == s.orders.Keys
    requires Adopted(a.orders, rows, s.seqNo)[id].ref != Adopted(s.orders, rows, s.seqNo)[id].ref
    requires id in Reconcile(costs, s, rows).0.orders && !Reconcile(costs, s, rows).0.orders[id].reject.ByGate?
    ensures Reconcile(costs, r, rows).0.orders != Visible(Reconcile(costs, s, rows).0.orders)
  {
    ReconcileSeen(costs, r, a, rows);
    ReconcileRefs(costs, a, rows);
    ReconcileRefs(costs, s, rows);
    assert id in Visible(Reconcile(costs, s, rows).0.orders);
  }

  lemma StaysVisible(costs: CostModel, s: Session, rows: seq<Row>, id: nat)
    requires Shape(s) && OneUnsurePerKey(s.orders) && DistinctRows(rows) && id in s.orders && s.orders[id].status.Unknown?
    ensures id in Reconcile(costs, s, rows).0.orders && !Reconcile(costs, s, rows).0.orders[id].reject.ByGate?
  {
    LoopDecidesAtOnce(costs, s, rows, s.seqNo);
    SyncKeepsRefs(costs, Midway(costs, s, rows), rows, s.seqNo);
  }

  /** What the records describe after j turns of the first loop, and that a restart there sees it. */
  lemma RestartAfterAdoption(costs: CostModel, start: Balance, s: Session, rows: seq<Row>, j: nat) returns (r: Session)
    requires Ready(costs, start, s, rows) && Kept(costs, start, s) && Legible(s) && OneClock(s) && j <= s.seqNo
    ensures var a := AdoptTo(costs, Recorded(s), rows, j).0;
            && Resume(costs, AdoptTo(costs, s, rows, j).0.journal) == Some(r)
            && Seen(r, a) && r.seqNo <= a.seqNo == s.seqNo && (forall k :: k in r.orders ==> k <= r.seqNo)
            && OneUnsurePerKey(a.orders) && a.orders == Adopted(Recorded(s).orders, rows, j)
  {
    var t := Recorded(s);
    var a := AdoptTo(costs, t, rows, j).0;
    RecordedReady(costs, start, s, rows);
    AdoptToShadowed(costs, t, s, rows, j);
    assert Inv(costs, start, a) && a.seqNo == s.seqNo by { AdoptToInv(costs, start, t, rows, j); }
    assert a.orders == Adopted(t.orders, rows, j) by { LoopDecidesAtOnce(costs, t, rows, j); }
    assert SameClocks(s.orders, a.orders) by { AdoptionClocks(costs, start, t, rows, j); }
    AdoptToJournal(costs, t, rows, j);
    AdoptToPlain(costs, t, rows, j);
    RestartAt(costs, start, s, a);
    r := Resume(costs, a.journal).value;
    assert GateClosed(a.orders);
  }

  /** The first loop gives the same references to what the records describe. */
  lemma AdoptedAlike(t: Session, s: Session, rows: seq<Row>, n: nat, id: nat)
    requires Shadows(t, s) && id in s.orders
    ensures Adopted(t.orders, rows, n)[id].ref == Adopted(s.orders, rows, n)[id].ref
  {
    ShadowKnown(t, s);
    CandidatesReadIntent(t.orders[id], s.orders[id], rows, Known(s.orders));
  }

  /** Run again from a cut after j turns, the first loop gives the order another reference. */
  predicate RefMoves(t: Orders, s: Orders, rows: seq<Row>, j: nat, n: nat, id: nat) {
    id in t && id in s && Adopted(Adopted(t, rows, j), rows, n)[id].ref != Adopted(s, rows, n)[id].ref
  }

  lemma TemptedRefs(t: Session, s: Session, rows: seq<Row>, id: nat, j: nat, k: nat)
    requires Shape(s) && Exclusive(t.orders) && Shadows(t, s) && GoodSnapshot(rows) && Tempts(t.orders, rows, id, j, k)
    requires forall j', k' :: Tempts(t.orders, rows, id, j', k') ==> j <= j'
    requires |Candidates(t.orders[id], rows, Known(t.orders))| <= 1
    ensures RefMoves(t.orders, s.orders, rows, j, s.seqNo, id)
  {
    assert 1 <= id <= s.seqNo && 1 <= j <= s.seqNo;
    DecidedOtherwise(t.orders, rows, id, j, k, s.seqNo);
    AdoptedAlike(t, s, rows, s.seqNo, id);
  }

  lemma RerunDiffers(costs: CostModel, r: Session, a: Session, t: Orders, s: Session, rows: seq<Row>, id: nat, j: nat)
    requires Shape(s) && Exclusive(s.orders) && GoodSnapshot(rows) && id in s.orders && s.orders[id].status.Unknown?
    requires t.Keys == s.orders.Keys && a.orders == Adopted(t, rows, j) && OneUnsurePerKey(a.orders)
    requires RefMoves(t, s.orders, rows, j, s.seqNo, id)
    requires Seen(r, a) && r.seqNo <= a.seqNo == s.seqNo && forall i :: i in r.orders ==> i <= r.seqNo
    ensures Reconcile(costs, r, rows).0.orders != Visible(Reconcile(costs, s, rows).0.orders)
  {
    StaysVisible(costs, s, rows, id);
    EndsDiffer(costs, r, a, s, rows, id);
  }

  /** An order whose decision the cut after some turn of the first loop changes. */
  lemma FindDecidedOtherwise(t: Session, s: Session, rows: seq<Row>) returns (id: nat, j: nat)
    requires Shape(s) && Exclusive(t.orders) && Shadows(t, s) && GoodSnapshot(rows) && !Repeatable(t.orders, rows)
    ensures id in s.orders && s.orders[id].status.Unknown? && j <= s.seqNo && RefMoves(t.orders, s.orders, rows, j, s.seqNo, id)
  {
    var k;
    id, j, k := FindTempter(t.orders, rows);
    TemptedRefs(t, s, rows, id, j, k);
  }

  lemma FindTempter(orders: Orders, rows: seq<Row>) returns (id: nat, j: nat, k: nat)
    requires !Repeatable(orders, rows)
    ensures Tempts(orders, rows, id, j, k) && (forall j', k' :: Tempts(orders, rows, id, j', k') ==> j <= j')
    ensures |Candidates(orders[id], rows, Known(orders))| <= 1
  {
    var j0, i, k0 :| j0 in orders && Replaceable(orders, rows, j0) && i in orders && orders[i].status.Unknown?
                     && 0 <= k0 < |rows| && Matches(orders[i], rows[k0]) && rows[k0].no == orders[j0].ref.no.value
                     && |Candidates(orders[i], rows, Known(orders))| <= 1;
    id := i;
    j, k := FirstTempter(orders, rows, id, j0, k0);
  }

  /** The cut just after that turn: restored and rerun, the reconcile ends elsewhere. */
  lemma DecidedCutDiffers(costs: CostModel, start: Balance, s: Session, rows: seq<Row>, id: nat, j: nat)
    requires Ready(costs, start, s, rows) && Kept(costs, start, s) && Legible(s) && OneClock(s)
    requires id in s.orders && s.orders[id].status.Unknown? && j <= s.seqNo
    requires RefMoves(Recorded(s).orders, s.orders, rows, j, s.seqNo, id)
    ensures var n := |AdoptTo(costs, s, rows, j).0.journal|;
            |s.journal| <= n <= |Reconcile(costs, s, rows).0.journal| && !SameAfterCut(costs, s, rows, n)
  {
    var r := DecidedRerun(costs, start, s, rows, id, j);
    CutAfterAdoption(costs, s, rows, j);
    CutDiffers(costs, s, rows, AdoptTo(costs, s, rows, j).0.journal, r);
  }

  lemma DecidedRerun(costs: CostModel, start: Balance, s: Session, rows: seq<Row>, id: nat, j: nat) returns (r: Session)
    requires Ready(costs, start, s, rows) && Kept(costs, start, s) && Legible(s) && OneClock(s)
    requires id in s.orders && s.orders[id].status.Unknown? && j <= s.seqNo
    requires RefMoves(Recorded(s).orders, s.orders, rows, j, s.seqNo, id)
    ensures Resume(costs, AdoptTo(costs, s, rows, j).0.journal) == Some(r)
    ensures Reconcile(costs, r, rows).0.orders != Visible(Reconcile(costs, s, rows).0.orders)
  {
    r := RestartAfterAdoption(costs, start, s, rows, j);
    assert Recorded(s).orders.Keys == s.orders.Keys by { RecordedShadows(s); }
    RerunDiffers(costs, r, AdoptTo(costs, Recorded(s), rows, j).0, Recorded(s).orders, s, rows, id, j);
  }

  lemma SomeCutDiffers(costs: CostModel, start: Balance, s: Session, rows: seq<Row>) returns (n: nat)
    requires Ready(costs, start, s, rows) && Kept(costs, start, s) && Legible(s) && OneClock(s) && !Repeatable(s.orders, rows)
    ensures |s.journal| <= n <= |Reconcile(costs, s, rows).0.journal| && !SameAfterCut(costs, s, rows, n)
  {
    RecordedReady(costs, start, s, rows);
    assert !Repeatable(Recorded(s).orders, rows) by {
      if Repeatable(Recorded(s).orders, rows) {
        RepeatableReads(s, Recorded(s), rows);
      }
    }
    var id, j := FindDecidedOtherwise(Recorded(s), s, rows);
    DecidedCutDiffers(costs, start, s, rows, id, j);
    n := |AdoptTo(costs, s, rows, j).0.journal|;
  }

  /** A journal that cannot be read restarts nothing. */
  lemma UnreadableCut(costs: CostModel, start: Balance, s: Session, rows: seq<Row>) returns (n: nat)
    requires Ready(costs, start, s, rows) && Kept(costs, start, s) && (!Legible(s) || !FillsFit(s, rows))
    ensures |s.journal| <= n <= |Reconcile(costs, s, rows).0.journal| && !SameAfterCut(costs, s, rows, n)
  {
    var full := Reconcile(costs, s, rows).0.journal;
    ReconcileKept(costs, start, s, rows);
    ReconcilePlain(costs, s, rows);
    LegibleRestarts(costs, start, Reconcile(costs, s, rows).0);
    n := |full|;
    assert full[..n] == full;
  }

  /** A cut that ends elsewhere, if one of the conditions fails. */
  lemma CutThatDiffers(costs: CostModel, start: Balance, s: Session, rows: seq<Row>) returns (n: nat)
    requires Ready(costs, start, s, rows) && Kept(costs, start, s) && OneClock(s)
    requires !(Legible(s) && Repeatable(s.orders, rows) && FillsFit(s, rows) && CatchesUp(s, rows) && Lossless(s, rows))
    ensures |s.journal| <= n <= |Reconcile(costs, s, rows).0.journal| && !SameAfterCut(costs, s, rows, n)
  {
    if !Legible(s) || !FillsFit(s, rows) {
      n := UnreadableCut(costs, start, s, rows);
    } else if !Repeatable(s.orders, rows) {
      n := SomeCutDiffers(costs, start, s, rows);
    } else if !CatchesUp(s, rows) {
      n := |s.journal|;
      AmountLags(costs, start, s, rows);
    } else {
      n := |Reconcile(costs, s, rows).0.journal|;
      ReconcilePlain(costs, s, rows);
      AmountIsLost(costs, start, s, rows);
    }
  }

  /** Every cut of the reconcile, restored and rerun, ends where the uninterrupted one ends. */
  ghost predicate ExactlyOnceAt(costs: CostModel, s: Session, rows: seq<Row>) {
    forall n :: |s.journal| <= n <= |Reconcile(costs, s, rows).0.journal| ==> SameAfterCut(costs, s, rows, n)
  }

  /** EXACT CONDITION. Every cut of a reconcile, whatever its list, restored and rerun, ends where the uninterrupted one
      ends if and only if the journal can be read; no order in doubt with at most one unclaimed row matches a row whose
      number is about to be given up; every fill goes on top of an amount that is on record; every amount that is not on
      record is shown again; and no order is closed, without a fill, at another amount than the recorded one. */
  lemma ExactlyOnceExactly(costs: CostModel, start: Balance, s: Session, rows: seq<Row>)
    requires Ready(costs, start, s, rows) && Kept(costs, start, s) && OneClock(s)
    ensures ExactlyOnceAt(costs, s, rows)
            <==> Legible(s) && Repeatable(s.orders, rows) && FillsFit(s, rows) && CatchesUp(s, rows) && Lossless(s, rows)
  {
    if Legible(s) && Repeatable(s.orders, rows) && FillsFit(s, rows) && CatchesUp(s, rows) && Lossless(s, rows) {
      forall n | |s.journal| <= n <= |Reconcile(costs, s, rows).0.journal|
        ensures SameAfterCut(costs, s, rows, n)
      {
        CutRestoreReconcile(costs, start, s, rows, n);
      }
    } else {
      var n := CutThatDiffers(costs, start, s, rows);
    }
  }

  // ---------------------------------------------------------------- a second reconcile

  /** Some order in doubt has exactly one unclaimed row. */
  predicate Undecided(orders: Orders, rows: seq<Row>) {
    exists id :: id in orders && orders[id].status.Unknown? && |Candidates(orders[id], rows, Known(orders))| == 1
  }

  lemma NothingDecided(orders: Orders, rows: seq<Row>, n: nat)
    requires forall id :: id in orders ==> 1 <= id <= n
    ensures NamedRows(rows) ==> (Adopted(orders, rows, n) == orders <==> !Undecided(orders, rows))
    ensures NamedRows(rows) && Undecided(orders, rows) ==>
              exists id :: id in orders && Adopted(orders, rows, n)[id].ref != orders[id].ref
  {
    if NamedRows(rows) && Undecided(orders, rows) {
      var id :| id in orders && orders[id].status.Unknown? && |Candidates(orders[id], rows, Known(orders))| == 1;
      CandidateFacts(orders[id], rows, Known(orders), 0);
      assert orders[id].Numbered() ==> orders[id].ref.no.value in Known(orders);
      assert Adopted(orders, rows, n)[id].ref != orders[id].ref;
    }
  }

  lemma LoudTurnIdle(costs: CostModel, t: Session, rows: seq<Row>, n: nat)
    requires Workable(t, rows) && SyncOne(costs, t, rows, n).1.Some?
    ensures SameCore(SyncOne(costs, t, rows, n).0, t)
  {
    SyncRowLoud(costs, t, rows, n);
  }

  /** A loop that raised stopped between two turns. */
  lemma {:induction false} RaisedAfter(costs: CostModel, start: Balance, s: Session, rows: seq<Row>, n: nat) returns (k: nat)
    requires Ready(costs, start, s, rows) && SyncTo(costs, s, rows, n).1.Some?
    ensures k < n && SyncTo(costs, s, rows, k).1.None?
    ensures SameCore(SyncTo(costs, s, rows, n).0, SyncTo(costs, s, rows, k).0)
  {
    if SyncTo(costs, s, rows, n - 1).1.Some? {
      k := RaisedAfter(costs, start, s, rows, n - 1);
    } else {
      k := n - 1;
      var t := SyncTo(costs, s, rows, k).0;
      assert Workable(t, rows) by { TurnBegins(costs, start, s, rows, n); }
      LoudTurnIdle(costs, t, rows, n);
    }
  }

  /** Where a reconcile ended, raising or not, the second loop on the same snapshot has nothing to add. */
  lemma SecondLoopIdle(costs: CostModel, start: Balance, s: Session, rows: seq<Row>, once: Session, again: Session)
    requires Ready(costs, start, s, rows) && once == SyncTo(costs, s, rows, s.seqNo).0 && SameCore(again, once)
    ensures SameCore(SyncTo(costs, again, rows, s.seqNo).0, once)
    ensures SyncTo(costs, again, rows, s.seqNo).1 == SyncTo(costs, s, rows, s.seqNo).1
  {
    var k := s.seqNo;
    if SyncTo(costs, s, rows, s.seqNo).1.Some? {
      k := RaisedAfter(costs, start, s, rows, s.seqNo);
    }
    ResyncBetweenTurns(costs, start, s, rows, again, k, s.seqNo);
  }

  /** EXACT CONDITION. A second reconcile of the same snapshot, after one that ended or raised, changes nothing and
      ends or raises the same way if and only if no order then in doubt has exactly one unclaimed row. */
  lemma IdempotentExactly(costs: CostModel, start: Balance, s: Session, rows: seq<Row>)
    requires Ready(costs, start, s, rows)
    ensures var (once, err) := Reconcile(costs, s, rows);
            (SameCore(Reconcile(costs, once, rows).0, once) && Reconcile(costs, once, rows).1 == err)
            <==> !Undecided(once.orders, rows)
  {
    var (once, err) := Reconcile(costs, s, rows);
    ReconcileLawful(costs, start, s, rows);
    NothingDecided(once.orders, rows, once.seqNo);
    LoopDecidesAtOnce(costs, once, rows, once.seqNo);
    if Undecided(once.orders, rows) {
      ReconcileRefs(costs, once, rows);
    } else {
      MidwayIsReady(costs, start, s, rows);
      SecondLoopIdle(costs, start, Midway(costs, s, rows), rows, once, Midway(costs, once, rows));
    }
  }

  /** An immediate second reconcile of the same snapshot changes nothing and ends or raises the same way. */
  lemma ReconcileIdempotent(costs: CostModel, start: Balance, s: Session, rows: seq<Row>)
    requires Ready(costs, start, s, rows) && Repeatable(s.orders, rows)
    ensures var (once, err) := Reconcile(costs, s, rows);
            SameCore(Reconcile(costs, once, rows).0, once) && Reconcile(costs, once, rows).1 == err
  {
    var mid := Midway(costs, s, rows);
    var (once, err) := Reconcile(costs, s, rows);
    MidwayIsReady(costs, start, s, rows);
    var k := s.seqNo;
    if err.Some? {
      k := RaisedAfter(costs, start, mid, rows, s.seqNo);
    }
    ReconcileAgain(costs, start, s, rows, BetweenTurns(k), once);
  }
}
