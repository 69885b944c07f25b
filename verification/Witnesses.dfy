/** Two days on which an adopted order is given a second number: one where a crashed reconcile, run again, ends with
    another number, and one where a broker fill is booked for two orders. */
module Witnesses {
  import opened Contracts
  import opened Accounting
  import opened Recovery
  import opened Sessions
  import opened Replay
  import opened Invariants
  import opened Reconciling
  import opened Adoption
  import opened ExactlyOnce
  import opened RestartedReconcile
  import opened Operations
  import opened Repeating
  import opened Guarantees

  const TEN := Intent("005930", Buy, 10, Limit, Some(100), "")

  const UNANSWERED := Outcome(OutcomeUnknown, NO_REF)

  /** A row for the order, filled in part. */
  function RowNo(no: string, filled: int): Row {
    Row(no, "", "o", "005930", Buy, 10, 100, filled, filled * 100, 10 - filled, 0, false, 0)
  }

  /** The order as it is after an unanswered send and any later adoption and fill. */
  function Doubtful(id: nat, ref: BrokerRef, filled: int): Order {
    Order(id, TEN, Unknown, 0, ref, filled, filled * 100, NotRejected)
  }

  // ---------------------------------------------------------------- restarts in days with one clock reading

  /** A restart of a session with nothing in flight gives back the orders it shows. */
  lemma RestartGivesBack(costs: CostModel, start: Balance, s: Session)
    requires Rebuilds(costs, start, s) && OneClock(s) && NoPending(s.orders)
    ensures Resume(costs, s.journal).Some?
    ensures var r := Resume(costs, s.journal).value;
            && r.orders == Visible(s.orders) && r.ledger == s.ledger && r.journal == s.journal
            && r.seqNo <= s.seqNo && (forall id :: id in r.orders ==> id <= r.seqNo) && OneClock(r)
  {
    RestoreContinues(costs, start, s);
    ClockAtCut(costs, start, s, s);
  }

  // ---------------------------------------------------------------- an unanswered send, adopted and crashed

  function Sent(costs: CostModel, s: Session): Session {
    Next(costs, Next(costs, s, Place(TEN, 0, 0, 0)), Answer(s.seqNo + 1, UNANSWERED))
  }

  lemma SendHappens(costs: CostModel, first: Session, run: seq<Event>, s: Session) returns (more: seq<Event>)
    requires Reaches(costs, first, run, s) && NoPending(s.orders)
    requires forall id :: id in s.orders ==> id <= s.seqNo && (s.orders[id].status.Unknown? ==> !s.orders[id].SameKey(TEN))
    ensures Reaches(costs, first, more, Sent(costs, s))
    ensures Sent(costs, s).orders == s.orders[s.seqNo + 1 := Doubtful(s.seqNo + 1, NO_REF, 0)]
    ensures Sent(costs, s).ledger == s.ledger && Sent(costs, s).seqNo == s.seqNo + 1
    ensures Sent(costs, s).journal == s.journal + [IntentRecord(0, s.seqNo + 1, TEN), SubmitResult(s.seqNo + 1, UNANSWERED, Unknown)]
  {
    var id := s.seqNo + 1;
    var place, answer := Place(TEN, 0, 0, 0), Answer(id, UNANSWERED);
    ReachesByAction(costs, first, run, s, place);
    ReachesByAction(costs, first, run + [Act(place)], Next(costs, s, place), answer);
    more := run + [Act(place)] + [Act(answer)];
    assert Sent(costs, s).orders == s.orders[id := Doubtful(id, NO_REF, 0)];
  }

  lemma CrashHappens(costs: CostModel, first: Session, run: seq<Event>, s: Session)
    requires Reaches(costs, first, run, s)
    ensures Reaches(costs, first, run + [Crash], Step(costs, s, Crash))
  {
    assert (run + [Crash])[..|run + [Crash]| - 1] == run;
  }

  /** The session after the adoption of row "1" and perhaps a fill of it. */
  function Live(costs: CostModel, sent: Session, filled: int): Session {
    var adopted := Next(costs, sent, Adopt(1, RefOf(RowNo("1", filled))));
    if filled > 0 then Next(costs, adopted, Book(1, filled, filled * 100)) else adopted
  }

  /** After an unanswered first send, the adoption of row "1" and perhaps a fill of it. */
  lemma AdoptedAndFilled(costs: CostModel, first: Session, filled: int) returns (run: seq<Event>, s: Session)
    requires FirstSession(first, []) && 0 <= filled < 10
    ensures Reaches(costs, first, run, s) && s == Live(costs, Sent(costs, first), filled)
    ensures s.orders == map[1 := Doubtful(1, RefOf(RowNo("1", filled)), filled)] && s.seqNo == 1 && OneClock(s)
  {
    assert Reaches(costs, first, [], first);
    run := SendHappens(costs, first, [], first);
    var sent := Sent(costs, first);
    var adopt := Adopt(1, RefOf(RowNo("1", filled)));
    assert Enabled(sent, adopt);
    ReachesByAction(costs, first, run, sent, adopt);
    run, s := run + [Act(adopt)], Next(costs, sent, adopt);
    assert s.orders == map[1 := Doubtful(1, RefOf(RowNo("1", 0)), 0)];
    assert OneClock(s);
    if filled > 0 {
      run, s := FillHappens(costs, first, run, s, filled);
    }
  }

  lemma FillHappens(costs: CostModel, first: Session, run: seq<Event>, s: Session, filled: int) returns (more: seq<Event>, t: Session)
    requires Reaches(costs, first, run, s) && 0 < filled < 10 && OneClock(s)
    requires s.orders == map[1 := Doubtful(1, RefOf(RowNo("1", 0)), 0)] && s.seqNo == 1
    ensures Reaches(costs, first, more, t) && t == Next(costs, s, Book(1, filled, filled * 100))
    ensures t.orders == map[1 := Doubtful(1, RefOf(RowNo("1", filled)), filled)] && t.seqNo == 1 && OneClock(t)
  {
    var book := Book(1, filled, filled * 100);
    assert Enabled(s, book);
    ReachesByAction(costs, first, run, s, book);
    more, t := run + [Act(book)], Next(costs, s, book);
  }

  /** The order is back after the crash, still in doubt and holding the number "1". */
  predicate Crashed(s: Session, filled: int) {
    s.orders == map[1 := Doubtful(1, RefOf(RowNo("1", filled)), filled)] && s.seqNo == 1 && OneClock(s)
  }

  /** The same with a crash after it. */
  lemma AdoptedAndCrashed(costs: CostModel, first: Session, filled: int) returns (run: seq<Event>, s: Session)
    requires SoundCosts(costs) && FirstSession(first, []) && 0 <= filled < 10
    ensures Reaches(costs, first, run, s) && Crashed(s, filled)
    ensures Resume(costs, Live(costs, Sent(costs, first), filled).journal) == Some(s)
    ensures run != [] && run[|run| - 1] == Crash
  {
    var before, live := AdoptedAndFilled(costs, first, filled);
    assert Day(costs, first, before);
    assert Rebuilds(costs, first.ledger, live) by { DayInv(costs, first, before); }
    CrashHappens(costs, first, before, live);
    RestartGivesBack(costs, first.ledger, live);
    run, s := before + [Crash], Resume(costs, live.journal).value;
    var o := Doubtful(1, RefOf(RowNo("1", filled)), filled);
    assert Visible(map[1 := o]) == map[1 := o];
    assert 1 in s.orders;
  }

  // ---------------------------------------------------------------- two matching rows

  function TwoRows(filled: int): seq<Row> { [RowNo("1", filled), RowNo("2", filled)] }

  lemma TwoRowsGood(filled: int)
    ensures GoodSnapshot(TwoRows(filled)) && |TwoRows(filled)| == 2
  {
  }

  /** Of two matching rows, the one not claimed is the only candidate. */
  lemma OtherRow(id: nat, ref: BrokerRef, filled: int, now: int, claimed: string)
    requires claimed == "1" || claimed == "2"
    ensures Candidates(Doubtful(id, ref, filled), TwoRows(now), {claimed}) == [RowNo(if claimed == "1" then "2" else "1", now)]
  {
    var rows := TwoRows(now);
    OnlyCandidate(Doubtful(id, ref, filled), rows, {claimed}, if claimed == "1" then 1 else 0);
  }

  lemma CrashedFacts(s: Session, filled: int)
    requires Crashed(s, filled)
    ensures Known(s.orders) == {"1"} && OneUnsurePerKey(s.orders) && NoPending(s.orders)
    ensures Candidates(s.orders[1], TwoRows(filled), Known(s.orders)) == [RowNo("2", filled)]
  {
    OtherRow(1, s.orders[1].ref, filled, filled, "1");
  }

  /** A crash after an adoption leaves an order in doubt that another row can take over. */
  lemma ReadoptionIsReachable(costs: CostModel, first: Session) returns (run: seq<Event>, s: Session, rows: seq<Row>)
    requires SoundCosts(costs) && FirstSession(first, [])
    ensures Day(costs, first, run) && Exec(costs, first, run) == s && NoPending(s.orders)
    ensures run != [] && run[|run| - 1] == Crash
    ensures GoodSnapshot(rows) && Readoptable(s.orders, rows)
  {
    run, s := AdoptedAndCrashed(costs, first, 0);
    rows := TwoRows(0);
    TwoRowsGood(0);
    CrashedFacts(s, 0);
    assert Replaceable(s.orders, rows, 1);
  }

  // ---------------------------------------------------------------- a rerun that ends elsewhere

  lemma NumberTaken(costs: CostModel, s: Session, filled: int)
    requires Crashed(s, filled)
    ensures Midway(costs, s, TwoRows(filled)).orders == map[1 := Doubtful(1, RefOf(RowNo("2", filled)), filled)]
    ensures Midway(costs, s, TwoRows(filled)).ledger == s.ledger && Midway(costs, s, TwoRows(filled)).seqNo == 1
  {
    CrashedFacts(s, filled);
    TwoRowsGood(filled);
    LoopDecidesAtOnce(costs, s, TwoRows(filled), 1);
    assert Adopted(s.orders, TwoRows(filled), 1) == map[1 := Doubtful(1, RefOf(RowNo("2", filled)), filled)];
  }

  lemma RowOfNumber(filled: int, no: string)
    requires no == "1" || no == "2"
    ensures RowOf(TwoRows(filled), no) == Some(RowNo(no, filled))
  {
    var rows := TwoRows(filled);
    assert rows[..1] == [rows[0]];
  }

  /** The day the exactly-once property fails: an order in doubt was adopted, the process crashed, and the list then
      shows a second row. The reconcile that moves the order to it, cut after its adoption and run again, moves it back. */
  lemma CutEndsElsewhere(costs: CostModel, first: Session) returns (run: seq<Event>, s: Session, rows: seq<Row>, n: nat)
    requires SoundCosts(costs) && FirstSession(first, [])
    ensures Day(costs, first, run) && Exec(costs, first, run) == s
    ensures Ready(costs, first.ledger, s, rows) && OneClock(s)
    ensures |s.journal| <= n <= |Reconcile(costs, s, rows).0.journal| && !SameAfterCut(costs, s, rows, n)
  {
    run, s := AdoptedAndCrashed(costs, first, 0);
    rows := TwoRows(0);
    assert Day(costs, first, run);
    assert Ready(costs, first.ledger, s, rows) && Kept(costs, first.ledger, s) && Legible(s) by {
      DayInv(costs, first, run);
      TwoRowsGood(0);
      CrashedFacts(s, 0);
      KeptBy(costs, first.ledger, s, s);
    }
    assert !Repeatable(s.orders, rows) by {
      CrashedFacts(s, 0);
      assert Replaceable(s.orders, rows, 1);
      assert Matches(s.orders[1], rows[0]) && rows[0].no == s.orders[1].ref.no.value;
    }
    n := SomeCutDiffers(costs, first.ledger, s, rows);
  }

  // ---------------------------------------------------------------- one fill, two orders

  function Half(id: nat, no: string): Order { Doubtful(id, RefOf(RowNo(no, 5)), 5).(status := PartiallyFilled) }

  /** Moving to the second row changes no fill: it shows the same five shares. */
  lemma MovesToSecondRow(costs: CostModel, s: Session)
    requires Crashed(s, 5)
    ensures var (t, err) := Reconcile(costs, s, TwoRows(5));
            err.None? && t.orders == map[1 := Half(1, "2")] && t.ledger == s.ledger && t.seqNo == 1
  {
    var rows := TwoRows(5);
    var mid := Midway(costs, s, rows);
    NumberTaken(costs, s, 5);
    RowOfNumber(5, "2");
    assert SyncTo(costs, mid, rows, 0) == (mid, None);
    assert !HasCancelChild(rows, "2");
    assert DeriveStatus(RowNo("2", 5), false) == Success(PartiallyFilled);
    assert mid.orders[1 := mid.orders[1]] == mid.orders;
    assert SyncOne(costs, mid, rows, 1) == (Next(costs, mid, Move(1, PartiallyFilled)), None);
    assert SyncTo(costs, mid, rows, 1) == SyncOne(costs, mid, rows, 1);
  }

  /** An unanswered second send adopts the number the first order gave up. */
  lemma TakesFirstRow(costs: CostModel, s: Session)
    requires s.orders == map[1 := Half(1, "2"), 2 := Doubtful(2, NO_REF, 0)] && s.seqNo == 2
    ensures Midway(costs, s, TwoRows(5)).orders == map[1 := Half(1, "2"), 2 := Doubtful(2, RefOf(RowNo("1", 5)), 0)]
    ensures Midway(costs, s, TwoRows(5)).ledger == s.ledger && Midway(costs, s, TwoRows(5)).seqNo == 2
  {
    var rows := TwoRows(5);
    TwoRowsGood(5);
    assert Known(s.orders) == {"2"} by {
      assert s.orders[1].Numbered() && s.orders[1].ref.no.value == "2";
    }
    OtherRow(2, NO_REF, 0, 5, "2");
    LoopDecidesAtOnce(costs, s, rows, 2);
    assert Adopted(s.orders, rows, 2) == map[1 := Half(1, "2"), 2 := Doubtful(2, RefOf(RowNo("1", 5)), 0)];
  }

  lemma HalfIsSettled()
    ensures Settled(Half(1, "2"), TwoRows(5))
  {
    RowOfNumber(5, "2");
    assert !HasCancelChild(TwoRows(5), "2");
  }

  /** ... and books its fill. */
  lemma BooksFirstRow(costs: CostModel, mid: Session)
    requires mid.orders == map[1 := Half(1, "2"), 2 := Doubtful(2, RefOf(RowNo("1", 5)), 0)]
    ensures var (t, err) := SyncTo(costs, mid, TwoRows(5), 2);
            && err.None? && t.orders == map[1 := Half(1, "2"), 2 := Half(2, "1")]
            && Held(t.ledger, "005930") == Held(mid.ledger, "005930") + 5
  {
    var rows := TwoRows(5);
    HalfIsSettled();
    SettledIsQuiet(costs, mid, rows, 1);
    assert SyncTo(costs, mid, rows, 0) == (mid, None);
    assert SyncTo(costs, mid, rows, 1) == (mid, None);
    RowOfNumber(5, "1");
    assert !HasCancelChild(rows, "1");
    var booked := Next(costs, mid, Book(2, 5, 500));
    assert booked.orders == mid.orders[2 := Doubtful(2, RefOf(RowNo("1", 5)), 5)];
    assert DeriveStatus(RowNo("1", 5), false) == Success(PartiallyFilled);
    assert SyncOne(costs, mid, rows, 2) == (Next(costs, booked, Move(2, PartiallyFilled)), None);
  }

  lemma SecondOrderBooks(costs: CostModel, s: Session)
    requires s.orders == map[1 := Half(1, "2"), 2 := Doubtful(2, NO_REF, 0)] && s.seqNo == 2
    ensures var (t, err) := Reconcile(costs, s, TwoRows(5));
            && err.None? && t.orders == map[1 := Half(1, "2"), 2 := Half(2, "1")]
            && Held(t.ledger, "005930") == Held(s.ledger, "005930") + 5
  {
    TakesFirstRow(costs, s);
    BooksFirstRow(costs, Midway(costs, s, TwoRows(5)));
  }

  lemma ReconcileHappens(costs: CostModel, first: Session, run: seq<Event>, s: Session, rows: seq<Row>) returns (more: seq<Event>)
    requires SoundCosts(costs) && Initial(first) && Reaches(costs, first, run, s) && NoPending(s.orders) && NamedRows(rows)
    requires AmountsStand(Midway(costs, s, rows).orders, rows)
    ensures Reaches(costs, first, more, Reconcile(costs, s, rows).0)
  {
    DayInv(costs, first, run);
    var added := ReconcileRuns(costs, first.ledger, s, rows);
    ReachesOn(costs, first, run, s, added, Reconcile(costs, s, rows).0);
    more := run + added;
  }

  lemma FiveHeld(costs: CostModel, first: Session, run: seq<Event>, s: Session)
    requires SoundCosts(costs) && FirstSession(first, []) && Reaches(costs, first, run, s) && Crashed(s, 5)
    ensures Held(s.ledger, "005930") == 5
  {
    DayConserves(costs, first, run, "005930");
    assert Sum(s.orders, NetFillOf("005930"), 0) == 0;
    assert Sum(s.orders, NetFillOf("005930"), 1) == 5;
  }

  /** The day a broker fill counts for two orders. Order 1 booked the five shares of row "1"; after a crash a reconcile
      moves it to row "2" with its five shares kept; order 2, sent unanswered, then adopts row "1" and books them again. */
  lemma FillBookedTwice(costs: CostModel, first: Session) returns (run: seq<Event>, s: Session, more: seq<Event>, t: Session)
    requires SoundCosts(costs) && FirstSession(first, [])
    ensures Reaches(costs, first, run, s) && Reaches(costs, first, more, t)
    ensures t == Reconcile(costs, Sent(costs, Reconcile(costs, s, TwoRows(5)).0), TwoRows(5)).0
    ensures 1 in s.orders && s.orders[1].ref.no == Some("1") && s.orders[1].filledQty == 5
    ensures 1 in t.orders && t.orders[1].filledQty == 5
    ensures 2 in t.orders && t.orders[2].ref.no == Some("1") && t.orders[2].filledQty == 5
    ensures Held(s.ledger, "005930") == 5 && Held(t.ledger, "005930") == 10
  {
    run, s := AdoptedAndCrashed(costs, first, 5);
    FiveHeld(costs, first, run, s);
    var rows := TwoRows(5);
    var moved := Reconcile(costs, s, rows).0;
    MovesToSecondRow(costs, s);
    more := MoveHappens(costs, first, run, s);
    more := SendHappens(costs, first, more, moved);
    var sent := Sent(costs, moved);
    assert sent.orders == map[1 := Half(1, "2"), 2 := Doubtful(2, NO_REF, 0)];
    more := BookingHappens(costs, first, more, sent);
    SecondOrderBooks(costs, sent);
    t := Reconcile(costs, sent, rows).0;
  }

  lemma MoveHappens(costs: CostModel, first: Session, run: seq<Event>, s: Session) returns (more: seq<Event>)
    requires SoundCosts(costs) && FirstSession(first, []) && Reaches(costs, first, run, s) && Crashed(s, 5)
    ensures Reaches(costs, first, more, Reconcile(costs, s, TwoRows(5)).0)
  {
    TwoRowsGood(5);
    CrashedFacts(s, 5);
    NumberTaken(costs, s, 5);
    RowOfNumber(5, "2");
    more := ReconcileHappens(costs, first, run, s, TwoRows(5));
  }

  lemma BookingHappens(costs: CostModel, first: Session, run: seq<Event>, sent: Session) returns (more: seq<Event>)
    requires SoundCosts(costs) && FirstSession(first, []) && Reaches(costs, first, run, sent)
    requires sent.orders == map[1 := Half(1, "2"), 2 := Doubtful(2, NO_REF, 0)] && sent.seqNo == 2
    ensures Reaches(costs, first, more, Reconcile(costs, sent, TwoRows(5)).0)
  {
    TwoRowsGood(5);
    TakesFirstRow(costs, sent);
    RowOfNumber(5, "1");
    RowOfNumber(5, "2");
    more := ReconcileHappens(costs, first, run, sent, TwoRows(5));
  }
}
