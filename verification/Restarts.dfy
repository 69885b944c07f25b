/** Restarts of a whole day: from the bytes that reached the disk to the restored session, and from there to the
    reconcile that follows. */
module Restarts {
  import opened Contracts
  import opened Accounting
  import opened Recovery
  import opened Sessions
  import opened Replay
  import opened Invariants
  import opened Reconciling
  import opened Adoption
  import opened ExactlyOnce
  import opened Restating
  import opened RestartedReconcile
  import opened Operations
  import opened CatchingUp
  import opened Repeating
  import opened Guarantees
  import opened WorkingDays
  import Journal

  // ---------------------------------------------------------------- every byte prefix

  lemma {:induction false} ModePrefix<T>(entries: seq<Journal.Entry<T>>, mode: int, j: nat)
    requires j <= |entries|
    ensures Journal.OfMode(entries[..j], mode) <= Journal.OfMode(entries, mode)
  {
    if j < |entries| {
      var init := entries[..|entries| - 1];
      ModePrefix(init, mode, j);
      assert init[..j] == entries[..j];
    } else {
      assert entries[..j] == entries;
    }
  }

  /** A cut of the file lies somewhere in the line of one record, or at the very end. */
  lemma {:induction false} CutLine<T>(enc: Journal.Entry<T> -> seq<Journal.byte>, entries: seq<Journal.Entry<T>>, n: nat)
    returns (j: nat, r: nat)
    requires n < |Journal.Content(enc, entries)|
    ensures j < |entries| && r <= |enc(entries[j])|
    ensures n == |Journal.Content(enc, entries[..j])| + r
    ensures Journal.Content(enc, entries)[..n]
            == Journal.Content(enc, entries[..j]) + (enc(entries[j]) + [Journal.NEWLINE])[..r]
  {
    var init, last := entries[..|entries| - 1], entries[|entries| - 1];
    assert entries == init + [last];
    Journal.ContentAppends(enc, init, last);
    var before, line := Journal.Content(enc, init), enc(last) + [Journal.NEWLINE];
    if n < |before| {
      j, r := CutLine(enc, init, n);
      assert init[..j] == entries[..j];
      assert (before + line)[..n] == before[..n];
    } else {
      j, r := |init|, n - |before|;
      assert (before + line)[..n] == before + line[..r];
    }
  }

  /** The first n bytes of a file hold j whole records: their text, with or without the last line break. */
  predicate HoldsWhole<T>(enc: Journal.Entry<T> -> seq<Journal.byte>, entries: seq<Journal.Entry<T>>, n: nat, j: nat) {
    && j <= |entries| && |Journal.Content(enc, entries[..j])| <= n + 1
    && (j < |entries| ==> n < |Journal.Content(enc, entries[..j])| + |enc(entries[j])|)
  }

  /** EVERY CUT READS. Whatever number of bytes of a day's file reached the disk, reading it gives exactly the records
      whose whole text is there, and the day is found torn exactly when the file does not end with a whole line. */
  lemma EveryCutReads<T(!new)>(
    enc: Journal.Entry<T> -> seq<Journal.byte>, parse: seq<Journal.byte> -> Option<Journal.Json<T>>, mode: int,
    entries: seq<Journal.Entry<T>>, n: nat)
    returns (j: nat)
    requires Journal.Codec(enc, parse) && n <= |Journal.Content(enc, entries)|
    ensures HoldsWhole(enc, entries, n, j)
    ensures Journal.ReadsAs(parse, mode, Journal.Content(enc, entries)[..n], Journal.OfMode(entries[..j], mode),
                            n != |Journal.Content(enc, entries[..j])|)
  {
    var raw := Journal.Content(enc, entries);
    if n == |raw| {
      j := |entries|;
      assert entries[..j] == entries && raw[..n] == raw;
      Journal.WholeFile(enc, parse, mode, entries);
    } else {
      var i, r := CutLine(enc, entries, n);
      Journal.CrashedAppend(enc, parse, mode, entries[..i], entries[i], r);
      assert entries[..i + 1] == entries[..i] + [entries[i]];
      Journal.ContentAppends(enc, entries[..i], entries[i]);
      j := if r < |enc(entries[i])| then i else i + 1;
    }
  }

  /** EVERY CUT RESTORES. Cut the file of any day after any number of bytes: what is read is the journal of some moment
      of that day, and unless nothing had been recorded yet, the restore succeeds and continues the session that lived
      at that moment. */
  lemma EveryCutRestores(
    enc: Journal.Entry<Record> -> seq<Journal.byte>, parse: seq<Journal.byte> -> Option<Journal.Json<Record>>, mode: int,
    entries: seq<Journal.Entry<Record>>, n: nat, costs: CostModel, first: Session, run: seq<Event>)
    returns (j: nat, k: nat)
    requires Journal.Codec(enc, parse) && n <= |Journal.Content(enc, entries)|
    requires Day(costs, first, run) && Journal.OfMode(entries, mode) == Exec(costs, first, run).journal
    ensures HoldsWhole(enc, entries, n, j) && k <= |run|
    ensures var records := Journal.OfMode(entries[..j], mode);
            && Journal.ReadsAs(parse, mode, Journal.Content(enc, entries)[..n], records,
                               n != |Journal.Content(enc, entries[..j])|)
            && (records == [] ||
                (&& records == Exec(costs, first, run[..k]).journal
                 && Resume(costs, records).Some?
                 && Continues(Resume(costs, records).value, Exec(costs, first, run[..k]))))
  {
    j := EveryCutReads(enc, parse, mode, entries, n);
    ModePrefix(entries, mode, j);
    var records := Journal.OfMode(entries[..j], mode);
    k := 0;
    if records != [] {
      k := CrashReplay(costs, first, run, |records|);
      assert Exec(costs, first, run).journal[..|records|] == records;
    }
  }

  // ---------------------------------------------------------------- every record of a working day

  lemma OperateAppends(costs: CostModel, start: Balance, s: Session, op: Operation)
    requires SoundCosts(costs) && Kept(costs, start, s) && MayOperate(costs, s, op)
    ensures s.journal <= Operate(costs, s, op).journal
    ensures op.Do? ==> |Operate(costs, s, op).journal| <= |s.journal| + 1
    ensures op.Fall? ==> Operate(costs, s, op).journal == s.journal
    ensures op.FallIn? ==> Operate(costs, s, op).journal == Reconcile(costs, s, op.rows).0.journal[..op.n]
  {
    if ListOf(op).Some? {
      ReconcilePlain(costs, s, ListOf(op).value);
    }
  }

  /** The operation during which the n-th record was written: an action, the last record of which it is, or a reconcile.
      None before the first operation. */
  lemma {:induction false} RecordMoment(costs: CostModel, first: Session, ops: seq<Operation>, n: nat) returns (i: nat)
    requires Working(costs, first, ops) && 1 <= n <= |OperateAll(costs, first, ops).journal|
    ensures i <= |ops| && |At(costs, first, ops, i).journal| <= n
    ensures || At(costs, first, ops, i).journal == OperateAll(costs, first, ops).journal[..n]
            || (&& i < |ops| && ListOf(ops[i]).Some?
                && n <= |Reconcile(costs, At(costs, first, ops, i), ListOf(ops[i]).value).0.journal|
                && Reconcile(costs, At(costs, first, ops, i), ListOf(ops[i]).value).0.journal[..n]
                   == OperateAll(costs, first, ops).journal[..n])
  {
    if ops == [] {
      i := 0;
      assert ops[..0] == ops;
    } else {
      var init, last := ops[..|ops| - 1], ops[|ops| - 1];
      var s := OperateAll(costs, first, init);
      WorkingKept(costs, first, init);
      OperateAppends(costs, first.ledger, s, last);
      if n <= |s.journal| {
        i := RecordMoment(costs, first, init, n);
        assert init[..i] == ops[..i];
      } else {
        i := if last.Do? then |ops| else |ops| - 1;
        assert ops[..|ops|] == ops && ops[..|ops| - 1] == init;
      }
    }
  }

  /** The day cut short by a crash after this record. */
  predicate CutShort(cut: seq<Operation>, ops: seq<Operation>) {
    cut != [] && (cut[|cut| - 1].Fall? || cut[|cut| - 1].FallIn?) && cut[..|cut| - 1] <= ops
  }

  lemma CrashAfter(costs: CostModel, first: Session, ops: seq<Operation>, i: nat, op: Operation) returns (cut: seq<Operation>)
    requires Working(costs, first, ops) && i <= |ops| && (op.Fall? || op.FallIn?) && MayOperate(costs, At(costs, first, ops, i), op)
    ensures Working(costs, first, cut) && CutShort(cut, ops)
    ensures OperateAll(costs, first, cut) == Operate(costs, At(costs, first, ops, i), op)
  {
    WorkingPrefix(costs, first, ops, i);
    OperateOn(costs, first, ops[..i], op);
    cut := ops[..i] + [op];
    assert cut[..|cut| - 1] == ops[..i];
  }

  lemma ReadableRestarts(costs: CostModel, start: Balance, s: Session, rows: seq<Row>, n: nat)
    requires SoundCosts(costs) && Kept(costs, start, s) && NoPending(s.orders) && GoodSnapshot(rows)
    requires |s.journal| <= n <= |Reconcile(costs, s, rows).0.journal|
    ensures Resume(costs, Reconcile(costs, s, rows).0.journal[..n]).Some?
            <==> ReplayOrders(Reconcile(costs, s, rows).0.journal[..n]).Success?
  {
    if ReplayOrders(Reconcile(costs, s, rows).0.journal[..n]).Success? {
      var c, a, run := ReadableCut(costs, start, s, rows, n);
      CrashInv(costs, start, Trail(Recorded(s), s, a));
    }
  }

  /** EVERY RECORD RESTARTS. Cut the journal of any working day after any record: there is a restart if and only if the
      records can be read, and the session it gives is the last moment of that working day cut short by a crash; so
      everything proved of working days holds of it. */
  lemma EveryRecordRestarts(costs: CostModel, first: Session, ops: seq<Operation>, n: nat) returns (cut: seq<Operation>)
    requires Working(costs, first, ops) && 1 <= n <= |OperateAll(costs, first, ops).journal|
    ensures var durable := OperateAll(costs, first, ops).journal[..n];
            && (Resume(costs, durable).Some? <==> ReplayOrders(durable).Success?)
            && (Resume(costs, durable).Some? ==>
                  && Working(costs, first, cut) && CutShort(cut, ops)
                  && OperateAll(costs, first, cut) == Resume(costs, durable).value)
  {
    var durable := OperateAll(costs, first, ops).journal[..n];
    var i := RecordMoment(costs, first, ops, n);
    var s := At(costs, first, ops, i);
    MomentKept(costs, first, ops, i);
    cut := [];
    if s.journal == durable {
      LegibleRestarts(costs, first.ledger, s);
      if Resume(costs, durable).Some? {
        cut := CrashAfter(costs, first, ops, i, Fall);
      }
    } else {
      var rows := ListOf(ops[i]).value;
      NextMoment(costs, first, ops, i);
      ReadableRestarts(costs, first.ledger, s, rows, n);
      if Resume(costs, durable).Some? {
        cut := CrashAfter(costs, first, ops, i, FallIn(rows, n));
      }
    }
  }

  /** If every fill of the day goes on top of a recorded amount, the journal can be read from every record. */
  lemma FittingDayReads(costs: CostModel, first: Session, ops: seq<Operation>, n: nat)
    requires Working(costs, first, ops) && forall i :: 0 <= i < |ops| ==> FitsAt(costs, first, ops, i)
    requires n <= |OperateAll(costs, first, ops).journal|
    ensures ReplayOrders(OperateAll(costs, first, ops).journal[..n]).Success?
  {
    LegibleTo(costs, first, ops, |ops|);
    assert ops[..|ops|] == ops;
    var full := OperateAll(costs, first, ops).journal;
    if ReplayOrders(full[..n]).Failure? {
      StaysUnreadable(full[..n], full);
    }
  }

  /** EVERY BYTE. Cut the file of any working day after any number of bytes: what is read is a prefix of its records, and
      unless nothing had been recorded yet, it restarts if and only if it can be read, as the working day cut short there;
      where every fill went on top of a recorded amount it always does. */
  lemma EveryByteRestarts(
    enc: Journal.Entry<Record> -> seq<Journal.byte>, parse: seq<Journal.byte> -> Option<Journal.Json<Record>>, mode: int,
    entries: seq<Journal.Entry<Record>>, n: nat, costs: CostModel, first: Session, ops: seq<Operation>)
    returns (j: nat, cut: seq<Operation>)
    requires Journal.Codec(enc, parse) && n <= |Journal.Content(enc, entries)|
    requires Working(costs, first, ops) && Journal.OfMode(entries, mode) == OperateAll(costs, first, ops).journal
    ensures HoldsWhole(enc, entries, n, j)
    ensures var records := Journal.OfMode(entries[..j], mode);
            && Journal.ReadsAs(parse, mode, Journal.Content(enc, entries)[..n], records,
                               n != |Journal.Content(enc, entries[..j])|)
            && (records == [] ||
                (&& (Resume(costs, records).Some? <==> ReplayOrders(records).Success?)
                 && (Resume(costs, records).Some? ==>
                       && Working(costs, first, cut) && CutShort(cut, ops)
                       && OperateAll(costs, first, cut) == Resume(costs, records).value)
                 && ((forall i :: 0 <= i < |ops| ==> FitsAt(costs, first, ops, i)) ==> Resume(costs, records).Some?)))
  {
    j := EveryCutReads(enc, parse, mode, entries, n);
    ModePrefix(entries, mode, j);
    var records := Journal.OfMode(entries[..j], mode);
    cut := [];
    if records != [] {
      assert OperateAll(costs, first, ops).journal[..|records|] == records;
      cut := EveryRecordRestarts(costs, first, ops, |records|);
      if forall i :: 0 <= i < |ops| ==> FitsAt(costs, first, ops, i) {
        FittingDayReads(costs, first, ops, |records|);
      }
    }
  }

  // ---------------------------------------------------------------- days whose submits read the clock once

  predicate ReadsOnce(e: Event) { e.Act? && e.action.Place? ==> e.action.createdAt == e.action.ts }

  predicate AllReadOnce(run: seq<Event>) { forall i :: 0 <= i < |run| ==> ReadsOnce(run[i]) }

  /** No record names an order that is still to come. */
  lemma NextIdUnrecorded(costs: CostModel, start: Balance, s: Session, k: nat)
    requires Rebuilds(costs, start, s) && k < |s.journal| && s.journal[k].IntentRecord?
    ensures s.journal[k].id != s.seqNo + 1
  {
    RecordedIdsBounded(s.journal, k);
  }

  /** A new order under the next id. */
  lemma NewOrderClock(costs: CostModel, start: Balance, s: Session, o: Order, r: Record)
    requires Rebuilds(costs, start, s) && OneClock(s)
    requires r.IntentRecord? ==> r.id == s.seqNo + 1 && r.ts == o.createdAt
    ensures OneClock(s.(orders := s.orders[s.seqNo + 1 := o], journal := s.journal + [r]))
  {
    forall k | 0 <= k < |s.journal| && s.journal[k].IntentRecord?
      ensures s.journal[k].id != s.seqNo + 1
    {
      NextIdUnrecorded(costs, start, s, k);
    }
  }

  /** An order that is there keeps its creation time. */
  lemma OldOrderClock(s: Session, t: Session)
    requires OneClock(s) && t.orders.Keys == s.orders.Keys
    requires forall id :: id in s.orders ==> t.orders[id].createdAt == s.orders[id].createdAt
    requires s.journal <= t.journal && forall k :: |s.journal| <= k < |t.journal| ==> !t.journal[k].IntentRecord?
    ensures OneClock(t)
  {
    forall k | 0 <= k < |t.journal| && t.journal[k].IntentRecord? && t.journal[k].id in t.orders
      ensures t.journal[k].ts == t.orders[t.journal[k].id].createdAt
    {
      assert t.journal[k] == s.journal[k];
    }
  }

  /** Every action but the two that create an order leaves ids and creation times alone. */
  lemma ActionKeepsClocks(costs: CostModel, s: Session, a: Action)
    requires !a.Place? && !a.GateReject?
    ensures var t := Next(costs, s, a);
            && t.orders.Keys == s.orders.Keys
            && (forall id :: id in s.orders ==> t.orders[id].createdAt == s.orders[id].createdAt)
            && s.journal <= t.journal && forall k :: |s.journal| <= k < |t.journal| ==> !t.journal[k].IntentRecord?
  {
  }

  lemma ActionClock(costs: CostModel, start: Balance, s: Session, a: Action)
    requires Rebuilds(costs, start, s) && OneClock(s) && ReadsOnce(Act(a))
    ensures OneClock(Next(costs, s, a))
  {
    var id := s.seqNo + 1;
    match a
    case Place(intent, createdAt, ts, sentAt) =>
      NewOrderClock(costs, start, s, Order(id, intent, PendingSubmit, createdAt, NO_REF, 0, 0, NotRejected), IntentRecord(ts, id, intent));
    case GateReject(intent, createdAt, code) =>
      NewOrderClock(costs, start, s, Order(id, intent, Rejected, createdAt, NO_REF, 0, 0, ByGate(code)), RiskReject(id, code));
    case _ =>
      ActionKeepsClocks(costs, s, a);
      OldOrderClock(s, Next(costs, s, a));
  }

  /** A restored order has the timestamp of its record, which was its creation time. */
  lemma CrashClock(costs: CostModel, start: Balance, s: Session)
    requires Rebuilds(costs, start, s) && OneClock(s)
    ensures Resume(costs, s.journal).Some? && OneClock(Resume(costs, s.journal).value)
  {
    RestoreContinues(costs, start, s);
    var r := Resume(costs, s.journal).value;
    forall k | 0 <= k < |r.journal| && r.journal[k].IntentRecord? && r.journal[k].id in r.orders
      ensures r.journal[k].ts == r.orders[r.journal[k].id].createdAt
    {
      var i := ReplayedClock(s.journal, r.journal[k].id);
    }
  }

  /** If every submit of a day read the clock once, memory and journal agree on creation times throughout. */
  lemma {:induction false} DayOneClock(costs: CostModel, first: Session, run: seq<Event>)
    requires Day(costs, first, run) && AllReadOnce(run)
    ensures OneClock(Exec(costs, first, run))
  {
    if run != [] {
      var init, last := run[..|run| - 1], run[|run| - 1];
      DayOneClock(costs, first, init);
      DayInv(costs, first, init);
      var s := Exec(costs, first, init);
      if last.Act? {
        assert ReadsOnce(last);
        ActionClock(costs, first.ledger, s, last.action);
      } else {
        CrashClock(costs, first.ledger, s);
      }
    }
  }

  /** EXACTLY ONCE, FOR DAYS. At any moment of any day of recorded actions whose submits read the clock once, with
      nothing in flight and any broker list: every cut of the reconcile, restored and rerun, ends where the uninterrupted
      one ends if and only if the list is repeatable and loses no amount. */
  lemma DayExactlyOnce(costs: CostModel, first: Session, run: seq<Event>, rows: seq<Row>)
    requires Day(costs, first, run) && AllReadOnce(run) && GoodSnapshot(rows)
    requires NoPending(Exec(costs, first, run).orders)
    ensures var s := Exec(costs, first, run);
            ExactlyOnceAt(costs, s, rows) <==> Repeatable(s.orders, rows) && Lossless(s, rows)
  {
    var s := Exec(costs, first, run);
    DayInv(costs, first, run);
    DayOneClock(costs, first, run);
    KeptBy(costs, first.ledger, s, s);
    ExactlyOnceExactly(costs, first.ledger, s, rows);
  }

  // ---------------------------------------------------------------- working days whose submits read the clock once

  predicate ReadsOnceOp(op: Operation) { op.Do? ==> ReadsOnce(Act(op.action)) }

  lemma ShadowClock(t: Session, s: Session)
    requires Shadows(t, s)
    ensures OneClock(t) <==> OneClock(s)
  {
    assert forall id :: id in s.orders ==> Aside(t.orders[id], s.orders[id]);
  }

  lemma ActionClockKept(costs: CostModel, start: Balance, s: Session, a: Action)
    requires Kept(costs, start, s) && Legible(s) && OneClock(s) && ReadsOnce(Act(a)) && Enabled(s, a) && !a.Book?
    ensures OneClock(Next(costs, s, a))
  {
    var t := Recorded(s);
    RecordedShadows(s);
    ShadowClock(t, s);
    ActionClock(costs, start, t, a);
    ActionShadowed(costs, t, s, a);
    ShadowClock(Next(costs, t, a), Next(costs, s, a));
  }

  lemma CrashClockKept(costs: CostModel, start: Balance, s: Session)
    requires Kept(costs, start, s) && Legible(s) && OneClock(s)
    ensures Resume(costs, s.journal).Some? && OneClock(Resume(costs, s.journal).value)
  {
    RecordedShadows(s);
    ShadowClock(Recorded(s), s);
    CrashClock(costs, start, Recorded(s));
  }

  lemma ReconcileClock(costs: CostModel, start: Balance, s: Session, rows: seq<Row>)
    requires Ready(costs, start, s, rows) && OneClock(s)
    ensures OneClock(Reconcile(costs, s, rows).0)
  {
    EndClocks(costs, start, s, rows);
    ReconcilePlain(costs, s, rows);
    OldOrderClock(s, Reconcile(costs, s, rows).0);
  }

  lemma CutClockKept(costs: CostModel, start: Balance, s: Session, rows: seq<Row>, n: nat)
    requires Ready(costs, start, s, rows) && Kept(costs, start, s) && OneClock(s) && CutRestarts(costs, s, rows, n)
    ensures OneClock(CutResumed(costs, s, rows, n))
  {
    var c, a, run := ReadableCut(costs, start, s, rows, n);
    var x := Trail(Recorded(s), s, a);
    assert OneClock(x) by {
      CutClock(costs, start, s, rows, c, a);
      TrailClocks(Recorded(s), s, a);
      ReconcilePlain(costs, s, rows);
      PrefixPlain(s.journal, Reconcile(costs, s, rows).0.journal, n);
      OldOrderClock(s, x);
    }
    CrashClock(costs, start, x);
  }

  /** The journal could be read before an operation if it can be read afterwards. */
  lemma LegibleBefore(costs: CostModel, start: Balance, s: Session, op: Operation)
    requires SoundCosts(costs) && Kept(costs, start, s) && MayOperate(costs, s, op) && Legible(Operate(costs, s, op))
    ensures Legible(s)
  {
    match op
    case Do(a) => ActionKept(costs, start, s, a);
    case DoReconcile(rows) => ReconcileKept(costs, start, s, rows);
    case Fall => LegibleRestarts(costs, start, s);
    case FallIn(rows, n) => var c, a, run := ReadableCut(costs, start, s, rows, n);
  }

  lemma OperationClock(costs: CostModel, start: Balance, s: Session, op: Operation)
    requires SoundCosts(costs) && Kept(costs, start, s) && MayOperate(costs, s, op) && ReadsOnceOp(op)
    requires Legible(s) && OneClock(s)
    ensures OneClock(Operate(costs, s, op))
  {
    match op
    case Do(a) => ActionClockKept(costs, start, s, a);
    case DoReconcile(rows) => ReconcileClock(costs, start, s, rows);
    case Fall => CrashClockKept(costs, start, s);
    case FallIn(rows, n) => CutClockKept(costs, start, s, rows, n);
  }

  /** If every submit of a working day read the clock once, memory and journal agree on creation times as long as the
      journal can be read. */
  lemma {:induction false} WorkingOneClock(costs: CostModel, first: Session, ops: seq<Operation>, i: nat)
    requires Working(costs, first, ops) && i <= |ops| && (forall k :: 0 <= k < |ops| ==> ReadsOnceOp(ops[k]))
    requires Legible(At(costs, first, ops, i))
    ensures OneClock(At(costs, first, ops, i))
  {
    if i == 0 {
      FirstMoment(costs, first, ops);
    } else {
      var s := At(costs, first, ops, i - 1);
      NextMoment(costs, first, ops, i - 1);
      LegibleBefore(costs, first.ledger, s, ops[i - 1]);
      WorkingOneClock(costs, first, ops, i - 1);
      OperationClock(costs, first.ledger, s, ops[i - 1]);
    }
  }

  /** EXACTLY ONCE, FOR WORKING DAYS. At any moment of any working day whose submits read the clock once, with nothing in
      flight and any broker list: every cut of the reconcile, restored and rerun, ends where the uninterrupted one ends if
      and only if the journal can be read, the list is repeatable, its fills go on top of recorded amounts, it shows every
      unrecorded amount again, and it closes no order without a fill at another amount than the recorded one. */
  lemma WorkingExactlyOnce(costs: CostModel, first: Session, ops: seq<Operation>, i: nat, rows: seq<Row>)
    requires Working(costs, first, ops) && i <= |ops| && (forall k :: 0 <= k < |ops| ==> ReadsOnceOp(ops[k]))
    requires NoPending(At(costs, first, ops, i).orders) && GoodSnapshot(rows)
    ensures var s := At(costs, first, ops, i);
            ExactlyOnceAt(costs, s, rows)
            <==> Legible(s) && Repeatable(s.orders, rows) && FillsFit(s, rows) && CatchesUp(s, rows) && Lossless(s, rows)
  {
    var s := At(costs, first, ops, i);
    MomentKept(costs, first, ops, i);
    if Legible(s) {
      WorkingOneClock(costs, first, ops, i);
      ExactlyOnceExactly(costs, first.ledger, s, rows);
    } else {
      var n := UnreadableCut(costs, first.ledger, s, rows);
    }
  }
}
