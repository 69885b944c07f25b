/** Days as the order manager's callers make them: actions, whole reconciles of whatever list the broker sends, and
    crashes. What memory keeps on every such day; exactly when a restart continues the session; and exactly when there
    can be a restart at all. */
module Operations {
  import opened Contracts
  import opened Accounting
  import opened Recovery
  import opened Sessions
  import opened Replay
  import opened Invariants
  import opened Reconciling
  import opened Adoption
  import opened ExactlyOnce
  import opened Restating
  import opened RestartedReconcile

  // ---------------------------------------------------------------- days of operations

  /** FallIn is a crash inside a reconcile, with n records in the file. */
  datatype Operation = Do(action: Action) | DoReconcile(rows: seq<Row>) | Fall | FallIn(rows: seq<Row>, n: nat)

  /** The list of a reconcile, finished or not. */
  function ListOf(op: Operation): Option<seq<Row>> {
    if op.DoReconcile? || op.FallIn? then Some(op.rows) else None
  }

  function Operate(costs: CostModel, s: Session, op: Operation): Session {
    match op
    case Do(a) => Next(costs, s, a)
    case DoReconcile(rows) => Reconcile(costs, s, rows).0
    case Fall => Step(costs, s, Crash)
    case FallIn(rows, n) => if CutRestarts(costs, s, rows, n) then CutResumed(costs, s, rows, n) else s
  }

  predicate CutRestarts(costs: CostModel, s: Session, rows: seq<Row>, n: nat) {
    |s.journal| <= n <= |Reconcile(costs, s, rows).0.journal| && Resume(costs, Reconcile(costs, s, rows).0.journal[..n]).Some?
  }

  /** The session restored from the first n records after a reconcile was begun. */
  function CutResumed(costs: CostModel, s: Session, rows: seq<Row>, n: nat): Session
    requires CutRestarts(costs, s, rows, n)
  {
    Resume(costs, Reconcile(costs, s, rows).0.journal[..n]).value
  }

  /** Numbers are adopted, fills booked and statuses moved only inside a reconcile; a crash that no restore follows ends
      the day. */
  predicate MayOperate(costs: CostModel, s: Session, op: Operation) {
    match op
    case Do(a) => Enabled(s, a) && !a.Adopt? && !a.Book? && !a.Move?
    case DoReconcile(rows) => NoPending(s.orders) && GoodSnapshot(rows)
    case Fall => Resume(costs, s.journal).Some?
    case FallIn(rows, n) => NoPending(s.orders) && GoodSnapshot(rows) && CutRestarts(costs, s, rows, n)
  }

  function OperateAll(costs: CostModel, s: Session, ops: seq<Operation>): Session {
    if ops == [] then s else Operate(costs, OperateAll(costs, s, ops[..|ops| - 1]), ops[|ops| - 1])
  }

  predicate AllMayOperate(costs: CostModel, s: Session, ops: seq<Operation>) {
    ops == [] ||
    (var before, op := ops[..|ops| - 1], ops[|ops| - 1];
     AllMayOperate(costs, s, before) && MayOperate(costs, OperateAll(costs, s, before), op))
  }

  ghost predicate Working(costs: CostModel, first: Session, ops: seq<Operation>) {
    SoundCosts(costs) && Initial(first) && AllMayOperate(costs, first, ops)
  }

  /** One operation more. */
  lemma OperateOn(costs: CostModel, first: Session, ops: seq<Operation>, op: Operation)
    requires Working(costs, first, ops) && MayOperate(costs, OperateAll(costs, first, ops), op)
    ensures Working(costs, first, ops + [op])
    ensures OperateAll(costs, first, ops + [op]) == Operate(costs, OperateAll(costs, first, ops), op)
  {
    assert (ops + [op])[..|ops + [op]| - 1] == ops;
  }

  // ---------------------------------------------------------------- what every such day keeps

  /** The session the records describe: memory with the recorded amounts. */
  function Recorded(s: Session): Session {
    match ReplayOrders(s.journal)
    case Failure(_) => s
    case Success(raw) =>
      s.(orders := map id | id in s.orders ::
                     if id in raw then s.orders[id].(filledAmount := raw[id].filledAmount) else s.orders[id])
  }

  predicate Legible(s: Session) { ReplayOrders(s.journal).Success? }

  /** Memory is lawful, and while the journal can be read it mirrors memory but for amounts. */
  ghost predicate Kept(costs: CostModel, start: Balance, s: Session) {
    Lawful(start, s) && (Legible(s) ==> Inv(costs, start, Recorded(s)))
  }

  lemma RecordedShadows(s: Session)
    ensures Shadows(Recorded(s), s)
  {
  }

  lemma RecordedIs(costs: CostModel, start: Balance, t: Session, s: Session)
    requires Rebuilds(costs, start, t) && Shadows(t, s) && Shape(t) && Shape(s)
    ensures Legible(s) && Recorded(s) == t
  {
    var raw := ReplayOrders(s.journal).value;
    forall id | id in s.orders
      ensures Recorded(s).orders[id] == t.orders[id]
    {
      assert OrderOk(id, t.orders[id]) && OrderOk(id, s.orders[id]);
      if id in raw {
        assert Mirror(raw[id], t.orders[id]);
      } else {
        assert id !in Visible(t.orders);
      }
    }
    assert Recorded(s).orders == t.orders;
  }

  lemma KeptBy(costs: CostModel, start: Balance, t: Session, s: Session)
    requires Inv(costs, start, t) && Shadows(t, s) && Lawful(start, s)
    ensures Kept(costs, start, s) && Legible(s) && Recorded(s) == t
  {
    RecordedIs(costs, start, t, s);
  }

  lemma LegibleRestarts(costs: CostModel, start: Balance, s: Session)
    requires Kept(costs, start, s)
    ensures Resume(costs, s.journal).Some? <==> Legible(s)
    ensures Legible(s) ==>
              Continues(Resume(costs, s.journal).value, Recorded(s)) && Inv(costs, start, Resume(costs, s.journal).value)
  {
    if Legible(s) {
      CrashInv(costs, start, Recorded(s));
    }
  }

  lemma ActionKept(costs: CostModel, start: Balance, s: Session, a: Action)
    requires SoundCosts(costs) && Kept(costs, start, s) && Enabled(s, a) && !a.Book?
    ensures Kept(costs, start, Next(costs, s, a))
    ensures Legible(s) <==> Legible(Next(costs, s, a))
    ensures Legible(s) ==> Recorded(Next(costs, s, a)) == Next(costs, Recorded(s), a)
  {
    var after := Next(costs, s, a);
    ActionLawful(costs, start, s, a);
    if Legible(s) {
      RecordedShadows(s);
      ActionShadowed(costs, Recorded(s), s, a);
      ActionInv(costs, start, Recorded(s), a);
      KeptBy(costs, start, Next(costs, Recorded(s), a), after);
    } else {
      StaysUnreadable(s.journal, after.journal);
    }
  }

  lemma CrashKept(costs: CostModel, start: Balance, s: Session)
    requires Kept(costs, start, s) && Resume(costs, s.journal).Some?
    ensures Kept(costs, start, Resume(costs, s.journal).value) && Legible(Resume(costs, s.journal).value)
  {
    LegibleRestarts(costs, start, s);
    var r := Resume(costs, s.journal).value;
    KeptBy(costs, start, r, r);
  }

  // ---------------------------------------------------------------- reconciles

  /** Before the first turn that books a fill on top of an amount not on record. */
  lemma {:induction false} FirstDirty(t: Session, s: Session, rows: seq<Row>, n: nat) returns (k: nat)
    requires Shape(s) && !AllClean(t, s, rows, n)
    ensures k < n && AllClean(t, s, rows, k)
    ensures k + 1 in s.orders && Reached(s.orders, rows, k + 1) && !CleanFill(t, s, rows, k + 1)
  {
    if !AllClean(t, s, rows, n - 1) {
      k := FirstDirty(t, s, rows, n - 1);
    } else {
      k := n - 1;
    }
  }

  lemma {:induction false} SyncPrefix(costs: CostModel, s: Session, rows: seq<Row>, m: nat, n: nat)
    requires m <= n
    ensures SyncTo(costs, s, rows, m).0.journal <= SyncTo(costs, s, rows, n).0.journal
  {
    if m < n {
      SyncPrefix(costs, s, rows, m, n - 1);
      SyncToJournal(costs, s, rows, n);
    }
  }

  lemma DirtyAmount(t: Session, s: Session, rows: seq<Row>, m: nat)
    requires Shadows(t, s) && !CleanFill(t, s, rows, m)
    ensures m in s.orders && t.orders[m].filledAmount != s.orders[m].filledAmount && RowFor(s.orders[m], rows).Some?
    ensures RowFor(s.orders[m], rows).value.filledQty > s.orders[m].filledQty
  {
    assert Aside(t.orders[m], s.orders[m]);
  }

  lemma DirtyTurn(costs: CostModel, start: Balance, t: Session, s: Session, rows: seq<Row>, k: nat)
    requires SoundCosts(costs) && Inv(costs, start, t) && Steady(start, s) && NamedRows(rows) && Shadows(t, s) && AllClean(t, s, rows, k)
    requires k + 1 in s.orders && Reached(s.orders, rows, k + 1) && !CleanFill(t, s, rows, k + 1)
    ensures UnreadableAfter(SyncTo(costs, s, rows, k).0.journal, SyncTo(costs, s, rows, k + 1).0.journal)
  {
    DirtyAmount(t, s, rows, k + 1);
    OpenIsVisible(s, k + 1);
    TrailOnRecord(costs, start, t, s, rows, k, k + 1);
    TurnUnreadable(costs, start, s, rows, k, t.orders[k + 1].filledAmount);
  }

  lemma OpenIsVisible(s: Session, m: nat)
    requires Shape(s) && m in s.orders && s.orders[m].Open()
    ensures !s.orders[m].reject.ByGate?
  {
    assert OrderOk(m, s.orders[m]);
  }

  /** No journal longer than this can be read. */
  predicate ReadableTo(journal: seq<Record>, n: nat) {
    forall j :: n < j <= |journal| ==> ReplayOrders(journal[..j]).Failure?
  }

  lemma UnreadableFrom(before: seq<Record>, after: seq<Record>, full: seq<Record>)
    requires UnreadableAfter(before, after) && after <= full
    ensures ReadableTo(full, |before|) && |before| < |full|
  {
    forall j | |before| < j <= |full|
      ensures ReplayOrders(full[..j]).Failure?
    {
      UnreadableBeyond(before, after, full, j);
    }
  }

  /** The turn after which no longer journal of the loop can be read. */
  lemma FirstUnreadable(costs: CostModel, start: Balance, t: Session, s: Session, rows: seq<Row>, n: nat) returns (k: nat)
    requires SoundCosts(costs) && Inv(costs, start, t) && Steady(start, s) && NamedRows(rows) && Shadows(t, s)
    requires !AllClean(t, s, rows, n)
    ensures k < n && AllClean(t, s, rows, k)
    ensures |SyncTo(costs, s, rows, k).0.journal| < |SyncTo(costs, s, rows, n).0.journal|
    ensures ReadableTo(SyncTo(costs, s, rows, n).0.journal, |SyncTo(costs, s, rows, k).0.journal|)
  {
    k := FirstDirty(t, s, rows, n);
    DirtyTurn(costs, start, t, s, rows, k);
    UnreadableOn(costs, s, rows, k, n);
  }

  lemma UnreadableOn(costs: CostModel, s: Session, rows: seq<Row>, k: nat, n: nat)
    requires k < n && UnreadableAfter(SyncTo(costs, s, rows, k).0.journal, SyncTo(costs, s, rows, k + 1).0.journal)
    ensures |SyncTo(costs, s, rows, k).0.journal| < |SyncTo(costs, s, rows, n).0.journal|
    ensures ReadableTo(SyncTo(costs, s, rows, n).0.journal, |SyncTo(costs, s, rows, k).0.journal|)
  {
    SyncPrefix(costs, s, rows, k + 1, n);
    UnreadableFrom(SyncTo(costs, s, rows, k).0.journal, SyncTo(costs, s, rows, k + 1).0.journal, SyncTo(costs, s, rows, n).0.journal);
  }

  lemma SyncUnreadable(costs: CostModel, start: Balance, t: Session, s: Session, rows: seq<Row>, n: nat)
    requires SoundCosts(costs) && Inv(costs, start, t) && Steady(start, s) && NamedRows(rows) && Shadows(t, s)
    requires !AllClean(t, s, rows, n)
    ensures ReplayOrders(SyncTo(costs, s, rows, n).0.journal).Failure?
  {
    var k := FirstUnreadable(costs, start, t, s, rows, n);
    var full := SyncTo(costs, s, rows, n).0.journal;
    assert full[..|full|] == full;
  }

  lemma TrailOnRecord(costs: CostModel, start: Balance, t: Session, s: Session, rows: seq<Row>, n: nat, id: nat)
    requires SoundCosts(costs) && Inv(costs, start, t) && Steady(start, s) && NamedRows(rows) && Shadows(t, s) && AllClean(t, s, rows, n)
    requires id in s.orders && id > n && !s.orders[id].reject.ByGate?
    ensures OnRecord(SyncTo(costs, s, rows, n).0.journal, id, t.orders[id].filledAmount)
  {
    var run := SyncToShadowed(costs, start, t, s, rows, n);
    RunInv(costs, start, t, run);
    SyncToSteady(costs, start, s, rows, n);
    MirroredOnRecord(costs, start, Trail(t, s, SyncTo(costs, s, rows, n).0), id);
  }

  lemma TurnUnreadable(costs: CostModel, start: Balance, s: Session, rows: seq<Row>, k: nat, amount: int)
    requires SoundCosts(costs) && Steady(start, s) && NamedRows(rows) && OnRecord(SyncTo(costs, s, rows, k).0.journal, k + 1, amount)
    requires k + 1 in s.orders && Reached(s.orders, rows, k + 1) && RowFor(s.orders[k + 1], rows).Some?
    requires RowFor(s.orders[k + 1], rows).value.filledQty > s.orders[k + 1].filledQty && s.orders[k + 1].filledAmount != amount
    ensures UnreadableAfter(SyncTo(costs, s, rows, k).0.journal, SyncTo(costs, s, rows, k + 1).0.journal)
  {
    assert SyncTo(costs, s, rows, k + 1).1.None? by { SyncDecidesAtOnce(costs, start, s, rows, k + 1); }
    SyncToSteady(costs, start, s, rows, k);
    DirtyFillUnreadable(costs, SyncTo(costs, s, rows, k).0, rows, k + 1, amount);
  }

  /** Up to order n, every fill the list brings goes on top of an amount that is on record. */
  predicate FillsFitTo(s: Session, rows: seq<Row>, n: nat) {
    var mid := Adopted(s.orders, rows, s.seqNo);
    forall id :: id in mid && id <= n && Reached(mid, rows, id) && RowFor(mid[id], rows).Some?
                 && RowFor(mid[id], rows).value.filledQty > mid[id].filledQty ==>
      Recorded(s).orders[id].filledAmount == s.orders[id].filledAmount
  }

  predicate FillsFit(s: Session, rows: seq<Row>) { FillsFitTo(s, rows, s.seqNo) }

  lemma FillsFitIsClean(costs: CostModel, start: Balance, s: Session, rows: seq<Row>, n: nat)
    requires Lawful(start, s) && DistinctRows(rows)
    ensures FillsFitTo(s, rows, n)
            <==> AllClean(AdoptTo(costs, Recorded(s), rows, s.seqNo).0, AdoptTo(costs, s, rows, s.seqNo).0, rows, n)
  {
    var t := Recorded(s);
    var midT, mid := AdoptTo(costs, t, rows, s.seqNo).0, AdoptTo(costs, s, rows, s.seqNo).0;
    MidwayAmounts(costs, t, s, rows);
    LoopDecidesAtOnce(costs, s, rows, s.seqNo);
    CleanIsFit(midT, mid, t, s, rows, n);
  }

  /** After the first loop the two sessions differ in the amounts in which they differed before. */
  lemma MidwayAmounts(costs: CostModel, t: Session, s: Session, rows: seq<Row>)
    requires t == Recorded(s)
    ensures var midT, mid := AdoptTo(costs, t, rows, s.seqNo).0, AdoptTo(costs, s, rows, s.seqNo).0;
            && midT.orders.Keys == mid.orders.Keys == t.orders.Keys == s.orders.Keys
            && (forall id :: id in mid.orders ==>
                  (midT.orders[id] == mid.orders[id] <==> t.orders[id].filledAmount == s.orders[id].filledAmount))
  {
    var midT, mid := AdoptTo(costs, t, rows, s.seqNo).0, AdoptTo(costs, s, rows, s.seqNo).0;
    RecordedShadows(s);
    AdoptToShadowed(costs, t, s, rows, s.seqNo);
    AdoptKeepsFills(costs, t, rows, s.seqNo);
    AdoptKeepsFills(costs, s, rows, s.seqNo);
    forall id | id in mid.orders
      ensures midT.orders[id] == mid.orders[id] <==> t.orders[id].filledAmount == s.orders[id].filledAmount
    {
      assert Aside(midT.orders[id], mid.orders[id]);
    }
  }

  lemma CleanIsFit(midT: Session, mid: Session, t: Session, s: Session, rows: seq<Row>, n: nat)
    requires midT.orders.Keys == mid.orders.Keys == t.orders.Keys == s.orders.Keys
    requires forall id :: id in mid.orders ==>
               (midT.orders[id] == mid.orders[id] <==> t.orders[id].filledAmount == s.orders[id].filledAmount)
    ensures AllClean(midT, mid, rows, n)
            <==> forall id :: id in mid.orders && id <= n && Reached(mid.orders, rows, id) && RowFor(mid.orders[id], rows).Some?
                              && RowFor(mid.orders[id], rows).value.filledQty > mid.orders[id].filledQty ==>
                   t.orders[id].filledAmount == s.orders[id].filledAmount
  {
  }

  /** EXACT CONDITION. From a session whose journal can be read, it can be read after a reconcile if and only if every
      fill the list brings goes on top of an amount that is on record. */
  lemma ReconcileKept(costs: CostModel, start: Balance, s: Session, rows: seq<Row>)
    requires SoundCosts(costs) && Kept(costs, start, s) && NoPending(s.orders) && GoodSnapshot(rows)
    ensures Kept(costs, start, Reconcile(costs, s, rows).0)
    ensures Legible(s) ==> (Legible(Reconcile(costs, s, rows).0) <==> FillsFit(s, rows))
    ensures !Legible(s) ==> !Legible(Reconcile(costs, s, rows).0)
  {
    var after := Reconcile(costs, s, rows).0;
    assert Lawful(start, after) by { ReconcileLawful(costs, start, s, rows); }
    if !Legible(s) {
      ReconcilePlain(costs, s, rows);
      StaysUnreadable(s.journal, after.journal);
    } else {
      FillsFitIsClean(costs, start, s, rows, s.seqNo);
      RecordedShadows(s);
      if FillsFit(s, rows) {
        CleanReconcileKept(costs, start, Recorded(s), s, rows);
      } else {
        DirtyReconcile(costs, start, Recorded(s), s, rows);
      }
    }
  }

  lemma CleanReconcileKept(costs: CostModel, start: Balance, t: Session, s: Session, rows: seq<Row>)
    requires SoundCosts(costs) && Inv(costs, start, t) && Lawful(start, s) && NoPending(s.orders) && NamedRows(rows) && Shadows(t, s)
    requires AllClean(AdoptTo(costs, t, rows, s.seqNo).0, AdoptTo(costs, s, rows, s.seqNo).0, rows, s.seqNo)
    ensures Kept(costs, start, Reconcile(costs, s, rows).0) && Legible(Reconcile(costs, s, rows).0)
    ensures Recorded(Reconcile(costs, s, rows).0) == Trail(t, s, Reconcile(costs, s, rows).0)
  {
    var after := Reconcile(costs, s, rows).0;
    var run := ReconcileShadowed(costs, start, t, s, rows);
    RunInv(costs, start, t, run);
    TrailShadows(t, s, after);
    ReconcileLawful(costs, start, s, rows);
    KeptBy(costs, start, Trail(t, s, after), after);
  }

  /** What the records describe after a reconcile whose fills fit. */
  lemma RecordedAfter(costs: CostModel, start: Balance, s: Session, rows: seq<Row>)
    requires SoundCosts(costs) && Kept(costs, start, s) && NoPending(s.orders) && GoodSnapshot(rows) && Legible(s) && FillsFit(s, rows)
    ensures var after := Reconcile(costs, s, rows).0;
            && Legible(after) && Recorded(after) == Trail(Recorded(s), s, after) && Inv(costs, start, Trail(Recorded(s), s, after))
  {
    FillsFitIsClean(costs, start, s, rows, s.seqNo);
    RecordedShadows(s);
    CleanReconcileKept(costs, start, Recorded(s), s, rows);
  }

  lemma DirtyReconcile(costs: CostModel, start: Balance, t: Session, s: Session, rows: seq<Row>)
    requires SoundCosts(costs) && Inv(costs, start, t) && Lawful(start, s) && NoPending(s.orders) && NamedRows(rows) && Shadows(t, s)
    requires !AllClean(AdoptTo(costs, t, rows, s.seqNo).0, AdoptTo(costs, s, rows, s.seqNo).0, rows, s.seqNo)
    ensures !Legible(Reconcile(costs, s, rows).0)
  {
    var midT, mid := AdoptTo(costs, t, rows, s.seqNo).0, AdoptTo(costs, s, rows, s.seqNo).0;
    AdoptToShadowed(costs, t, s, rows, s.seqNo);
    assert Inv(costs, start, midT) by { AdoptToInv(costs, start, t, rows, s.seqNo); }
    assert Steady(start, mid) by { AdoptToLawful(costs, start, s, rows, s.seqNo); }
    SyncUnreadable(costs, start, midT, mid, rows, s.seqNo);
  }

  // ---------------------------------------------------------------- crashes inside a reconcile

  lemma ShortCut(costs: CostModel, start: Balance, t: Session, s: Session, rows: seq<Row>, k: nat, n: nat) returns (m: nat)
    requires SoundCosts(costs) && Inv(costs, start, t) && Steady(start, s) && NamedRows(rows) && Shadows(t, s)
    requires !AllClean(t, s, rows, k)
    requires n <= |SyncTo(costs, s, rows, k).0.journal| && ReplayOrders(SyncTo(costs, s, rows, k).0.journal[..n]).Success?
    ensures m < k && AllClean(t, s, rows, m) && n <= |SyncTo(costs, s, rows, m).0.journal|
  {
    m := FirstUnreadable(costs, start, t, s, rows, k);
    ReadableIsShort(SyncTo(costs, s, rows, k).0.journal, |SyncTo(costs, s, rows, m).0.journal|, n);
  }

  lemma ReadableIsShort(journal: seq<Record>, b: nat, n: nat)
    requires ReadableTo(journal, b) && n <= |journal| && ReplayOrders(journal[..n]).Success?
    ensures n <= b
  {
  }

  /** The turn up to which a readable journal of the second loop goes. */
  lemma ReadableTurns(costs: CostModel, start: Balance, t: Session, s: Session, rows: seq<Row>, k: nat, n: nat) returns (m: nat)
    requires SoundCosts(costs) && Inv(costs, start, t) && Steady(start, s) && NamedRows(rows) && Shadows(t, s)
    requires n <= |SyncTo(costs, s, rows, k).0.journal| && ReplayOrders(SyncTo(costs, s, rows, k).0.journal[..n]).Success?
    ensures m <= k && AllClean(t, s, rows, m) && n <= |SyncTo(costs, s, rows, m).0.journal|
    ensures SyncTo(costs, s, rows, m).0.journal <= SyncTo(costs, s, rows, k).0.journal
  {
    m := k;
    if !AllClean(t, s, rows, k) {
      m := ShortCut(costs, start, t, s, rows, k, n);
    }
    SyncPrefix(costs, s, rows, m, k);
  }

  /** Every readable journal that ends inside a reconcile is the journal of one of its cuts, and mirrors that cut's memory
      but for amounts. */
  lemma ReadableCut(costs: CostModel, start: Balance, s: Session, rows: seq<Row>, n: nat)
    returns (c: Cut, a: Session, run: seq<Event>)
    requires SoundCosts(costs) && Kept(costs, start, s) && NoPending(s.orders) && GoodSnapshot(rows)
    requires |s.journal| <= n <= |Reconcile(costs, s, rows).0.journal|
    requires ReplayOrders(Reconcile(costs, s, rows).0.journal[..n]).Success?
    ensures Legible(s) && Shadows(Recorded(s), s) && CutState(costs, s, rows, c, a) && Ready(costs, start, a, rows)
    ensures a.journal == Reconcile(costs, s, rows).0.journal[..n]
    ensures !c.InAdoption? ==> FillsFitTo(s, rows, c.turn)
    ensures Reaches(costs, Recorded(s), run, Trail(Recorded(s), s, a)) && Inv(costs, start, Trail(Recorded(s), s, a))
  {
    var t, prefix := Recorded(s), Reconcile(costs, s, rows).0.journal[..n];
    if !Legible(s) {
      ReconcilePlain(costs, s, rows);
      StaysUnreadable(s.journal, prefix);
    }
    RecordedShadows(s);
    var midT, mid := Midway(costs, t, rows), Midway(costs, s, rows);
    AdoptToShadowed(costs, t, s, rows, s.seqNo);
    assert Inv(costs, start, midT) by { AdoptToInv(costs, start, t, rows, s.seqNo); }
    assert Steady(start, mid) by { AdoptToLawful(costs, start, s, rows, s.seqNo); }
    var m := ReadableTurns(costs, start, midT, mid, rows, s.seqNo, n);
    c, a, run := FindCutTo(costs, start, t, s, rows, m, n);
    RunInv(costs, start, t, run);
    FillsFitIsClean(costs, start, s, rows, c.turn);
  }

  /** A crash inside a reconcile, of a session its journal mirrors. */
  lemma MirroredCut(costs: CostModel, start: Balance, t: Session, rows: seq<Row>, n: nat) returns (run: seq<Event>, x: Session)
    requires SoundCosts(costs) && Inv(costs, start, t) && NoPending(t.orders) && GoodSnapshot(rows)
    requires |t.journal| <= n <= |Reconcile(costs, t, rows).0.journal|
    ensures Reaches(costs, t, run, x) && x.journal == Reconcile(costs, t, rows).0.journal[..n]
    ensures Inv(costs, start, x) && CutRestarts(costs, t, rows, n)
    ensures Continues(CutResumed(costs, t, rows, n), x) && Inv(costs, start, CutResumed(costs, t, rows, n))
  {
    var c, a;
    c, a, run := FindCut(costs, start, t, rows, n);
    x := Trail(t, t, a);
    RunInv(costs, start, t, run);
    CrashInv(costs, start, x);
  }

  lemma CutKept(costs: CostModel, start: Balance, s: Session, rows: seq<Row>, n: nat)
    requires SoundCosts(costs) && Kept(costs, start, s) && NoPending(s.orders) && GoodSnapshot(rows) && CutRestarts(costs, s, rows, n)
    ensures Kept(costs, start, CutResumed(costs, s, rows, n)) && Legible(CutResumed(costs, s, rows, n))
    ensures Inv(costs, start, CutResumed(costs, s, rows, n))
  {
    var c, a, run := ReadableCut(costs, start, s, rows, n);
    CrashInv(costs, start, Trail(Recorded(s), s, a));
    var r := CutResumed(costs, s, rows, n);
    KeptBy(costs, start, r, r);
  }

  lemma OperationKept(costs: CostModel, start: Balance, s: Session, op: Operation)
    requires SoundCosts(costs) && Kept(costs, start, s) && MayOperate(costs, s, op)
    ensures Kept(costs, start, Operate(costs, s, op))
  {
    match op
    case Do(a) => ActionKept(costs, start, s, a);
    case DoReconcile(rows) => ReconcileKept(costs, start, s, rows);
    case Fall => CrashKept(costs, start, s);
    case FallIn(rows, n) => CutKept(costs, start, s, rows, n);
  }

  lemma {:induction false} OperationsKept(costs: CostModel, start: Balance, s: Session, ops: seq<Operation>)
    requires SoundCosts(costs) && Kept(costs, start, s) && AllMayOperate(costs, s, ops)
    ensures Kept(costs, start, OperateAll(costs, s, ops))
  {
    if ops != [] {
      OperationsKept(costs, start, s, ops[..|ops| - 1]);
      OperationKept(costs, start, OperateAll(costs, s, ops[..|ops| - 1]), ops[|ops| - 1]);
    }
  }

  lemma WorkingKept(costs: CostModel, first: Session, ops: seq<Operation>)
    requires Working(costs, first, ops)
    ensures Kept(costs, first.ledger, OperateAll(costs, first, ops))
  {
    InitialInv(costs, first);
    assert Shadows(first, first);
    KeptBy(costs, first.ledger, first, first);
    OperationsKept(costs, first.ledger, first, ops);
  }
}
