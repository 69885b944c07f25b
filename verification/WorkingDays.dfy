/** Whole days of actions, reconciles of arbitrary lists and crashes: what holds on all of them, exactly which of them a
    restart can continue at every moment, and a broker under which all can be continued. */
module WorkingDays {
  import opened Contracts
  import opened Accounting
  import opened Sessions
  import opened Replay
  import opened Invariants
  import opened Reconciling
  import opened Adoption
  import opened Restating
  import opened Operations

  // ---------------------------------------------------------------- on every day

  /** On every working day, whatever lists the broker sends: open sells are held, no money appears or vanishes, each
      position is the morning's plus the orders' fills, and no two orders share a number or a doubt. */
  lemma EveryListSafe(costs: CostModel, first: Session, ops: seq<Operation>, symbol: string)
    requires Working(costs, first, ops)
    ensures var s := OperateAll(costs, first, ops);
            && Sum(s.orders, OpenOf(Sell, symbol), s.seqNo) <= Held(s.ledger, symbol)
            && Worth(s.ledger) == Worth(first.ledger) && Sound(s.ledger)
            && Held(s.ledger, symbol) == Held(first.ledger, symbol) + Sum(s.orders, NetFillOf(symbol), s.seqNo)
            && Exclusive(s.orders)
  {
    WorkingKept(costs, first, ops);
    var s := OperateAll(costs, first, ops);
    assert Covered(s.orders, s.ledger, s.seqNo, symbol) && Accounted(s.orders, s.ledger, first.ledger, s.seqNo, symbol);
  }

  /** And no reconcile raises an illegal transition or an oversell. */
  lemma EveryListLegal(costs: CostModel, first: Session, ops: seq<Operation>, rows: seq<Row>)
    requires Working(costs, first, ops) && NoPending(OperateAll(costs, first, ops).orders) && NamedRows(rows)
    ensures var err := Reconcile(costs, OperateAll(costs, first, ops), rows).1;
            err != Some(IllegalTransition) && err != Some(Oversell)
  {
    WorkingKept(costs, first, ops);
    var s := OperateAll(costs, first, ops);
    var mid := AdoptTo(costs, s, rows, s.seqNo).0;
    assert Steady(first.ledger, mid) by { AdoptToLawful(costs, first.ledger, s, rows, s.seqNo); }
    SyncToSteady(costs, first.ledger, mid, rows, s.seqNo);
  }

  // ---------------------------------------------------------------- moments of a day

  function At(costs: CostModel, first: Session, ops: seq<Operation>, i: nat): Session
    requires i <= |ops|
  {
    OperateAll(costs, first, ops[..i])
  }

  lemma {:induction false} WorkingPrefix(costs: CostModel, first: Session, ops: seq<Operation>, i: nat)
    requires Working(costs, first, ops) && i <= |ops|
    ensures Working(costs, first, ops[..i])
  {
    if i < |ops| {
      var init := ops[..|ops| - 1];
      WorkingPrefix(costs, first, init, i);
      assert init[..i] == ops[..i];
    } else {
      assert ops[..i] == ops;
    }
  }

  lemma NextMoment(costs: CostModel, first: Session, ops: seq<Operation>, i: nat)
    requires Working(costs, first, ops) && i < |ops|
    ensures At(costs, first, ops, i + 1) == Operate(costs, At(costs, first, ops, i), ops[i])
    ensures MayOperate(costs, At(costs, first, ops, i), ops[i])
    ensures Kept(costs, first.ledger, At(costs, first, ops, i))
  {
    WorkingPrefix(costs, first, ops, i + 1);
    assert ops[..i + 1][..i] == ops[..i];
    MomentKept(costs, first, ops, i);
  }

  lemma MomentKept(costs: CostModel, first: Session, ops: seq<Operation>, i: nat)
    requires Working(costs, first, ops) && i <= |ops|
    ensures Kept(costs, first.ledger, At(costs, first, ops, i))
  {
    WorkingPrefix(costs, first, ops, i);
    WorkingKept(costs, first, ops[..i]);
  }

  lemma FirstMoment(costs: CostModel, first: Session, ops: seq<Operation>)
    requires Initial(first)
    ensures At(costs, first, ops, 0) == first && Inv(costs, first.ledger, first)
  {
    assert ops[..0] == [];
    InitialInv(costs, first);
  }

  // ---------------------------------------------------------------- when a restart continues the session

  /** The i-th operation is no reconcile, or its list shows no order it comes to another amount for its quantity. */
  predicate StandsAt(costs: CostModel, first: Session, ops: seq<Operation>, i: nat)
    requires i < |ops|
  {
    ops[i].DoReconcile? ==>
      var s := At(costs, first, ops, i);
      StandsTo(Adopted(s.orders, ops[i].rows, s.seqNo), ops[i].rows)
  }

  lemma StandingStep(costs: CostModel, start: Balance, s: Session, op: Operation)
    requires SoundCosts(costs) && Inv(costs, start, s) && MayOperate(costs, s, op)
    requires op.DoReconcile? ==> StandsTo(Adopted(s.orders, op.rows, s.seqNo), op.rows)
    ensures Inv(costs, start, Operate(costs, s, op))
  {
    match op
    case Do(a) => ActionInv(costs, start, s, a);
    case DoReconcile(rows) =>
      MirrorsExactly(costs, start, s, rows);
      ReconcileLawful(costs, start, s, rows);
    case Fall => CrashInv(costs, start, s);
    case FallIn(rows, n) => var _, _ := MirroredCut(costs, start, s, rows, n);
  }

  lemma {:induction false} StandingInv(costs: CostModel, first: Session, ops: seq<Operation>, i: nat)
    requires Working(costs, first, ops) && i <= |ops| && forall j :: 0 <= j < i ==> StandsAt(costs, first, ops, j)
    ensures Inv(costs, first.ledger, At(costs, first, ops, i))
  {
    if i == 0 {
      FirstMoment(costs, first, ops);
    } else {
      StandingInv(costs, first, ops, i - 1);
      NextMoment(costs, first, ops, i - 1);
      assert StandsAt(costs, first, ops, i - 1);
      StandingStep(costs, first.ledger, At(costs, first, ops, i - 1), ops[i - 1]);
    }
  }

  lemma MirroredReplays(costs: CostModel, start: Balance, s: Session)
    requires Inv(costs, start, s)
    ensures Replays(costs, s)
  {
    RestoreContinues(costs, start, s);
  }

  /** A session a restart continues is one its journal mirrors. */
  lemma ReplaysIsMirrored(costs: CostModel, start: Balance, s: Session)
    requires Kept(costs, start, s) && Replays(costs, s)
    ensures Inv(costs, start, s)
  {
    LegibleRestarts(costs, start, s);
    RecordedShadows(s);
    MirroredIsSame(costs, start, Recorded(s), s);
  }

  lemma ReplayedListStood(costs: CostModel, start: Balance, s: Session, rows: seq<Row>)
    requires SoundCosts(costs) && Kept(costs, start, s) && NoPending(s.orders) && GoodSnapshot(rows)
    requires Replays(costs, s) && Replays(costs, Reconcile(costs, s, rows).0)
    ensures StandsTo(Adopted(s.orders, rows, s.seqNo), rows)
  {
    ReplaysIsMirrored(costs, start, s);
    MirrorsExactly(costs, start, s, rows);
  }

  lemma MomentStood(costs: CostModel, first: Session, ops: seq<Operation>, i: nat)
    requires Working(costs, first, ops) && i < |ops|
    requires Replays(costs, At(costs, first, ops, i)) && Replays(costs, At(costs, first, ops, i + 1))
    ensures StandsAt(costs, first, ops, i)
  {
    if ops[i].DoReconcile? {
      NextMoment(costs, first, ops, i);
      ReplayedListStood(costs, first.ledger, At(costs, first, ops, i), ops[i].rows);
    }
  }

  /** CRASH REPLAY, EXACTLY. A restart continues the session at every moment of a working day if and only if no list
      shows an order the reconcile comes to another amount for the quantity it has, counting the row it was just
      given. */
  lemma DayReplaysExactly(costs: CostModel, first: Session, ops: seq<Operation>)
    requires Working(costs, first, ops)
    ensures (forall i :: 0 <= i <= |ops| ==> Replays(costs, At(costs, first, ops, i)))
            <==> forall i :: 0 <= i < |ops| ==> StandsAt(costs, first, ops, i)
  {
    if forall i :: 0 <= i < |ops| ==> StandsAt(costs, first, ops, i) {
      forall i | 0 <= i <= |ops|
        ensures Replays(costs, At(costs, first, ops, i))
      {
        StandingInv(costs, first, ops, i);
        MirroredReplays(costs, first.ledger, At(costs, first, ops, i));
      }
    }
    if forall i :: 0 <= i <= |ops| ==> Replays(costs, At(costs, first, ops, i)) {
      forall i | 0 <= i < |ops|
        ensures StandsAt(costs, first, ops, i)
      {
        MomentStood(costs, first, ops, i);
      }
    }
  }

  // ---------------------------------------------------------------- when there can be a restart

  predicate FitsAt(costs: CostModel, first: Session, ops: seq<Operation>, i: nat)
    requires i < |ops|
  {
    ops[i].DoReconcile? ==> FillsFit(At(costs, first, ops, i), ops[i].rows)
  }

  lemma LegibleStep(costs: CostModel, start: Balance, s: Session, op: Operation)
    requires SoundCosts(costs) && Kept(costs, start, s) && MayOperate(costs, s, op) && Legible(s)
    ensures Legible(Operate(costs, s, op)) <==> (op.DoReconcile? ==> FillsFit(s, op.rows))
  {
    match op
    case Do(a) => ActionKept(costs, start, s, a);
    case DoReconcile(rows) => ReconcileKept(costs, start, s, rows);
    case Fall => CrashKept(costs, start, s);
    case FallIn(rows, n) => CutKept(costs, start, s, rows, n);
  }

  lemma LegibleMoment(costs: CostModel, first: Session, ops: seq<Operation>, i: nat)
    requires Working(costs, first, ops) && i < |ops| && Legible(At(costs, first, ops, i))
    ensures Legible(At(costs, first, ops, i + 1)) <==> FitsAt(costs, first, ops, i)
  {
    NextMoment(costs, first, ops, i);
    LegibleStep(costs, first.ledger, At(costs, first, ops, i), ops[i]);
  }

  lemma {:induction false} LegibleTo(costs: CostModel, first: Session, ops: seq<Operation>, i: nat)
    requires Working(costs, first, ops) && i <= |ops| && forall j :: 0 <= j < i ==> FitsAt(costs, first, ops, j)
    ensures Legible(At(costs, first, ops, i))
  {
    if i == 0 {
      FirstMoment(costs, first, ops);
    } else {
      LegibleTo(costs, first, ops, i - 1);
      assert FitsAt(costs, first, ops, i - 1);
      LegibleMoment(costs, first, ops, i - 1);
    }
  }

  lemma RestartsIffLegible(costs: CostModel, first: Session, ops: seq<Operation>, i: nat)
    requires Working(costs, first, ops) && i <= |ops|
    ensures Resume(costs, At(costs, first, ops, i).journal).Some? <==> Legible(At(costs, first, ops, i))
  {
    MomentKept(costs, first, ops, i);
    LegibleRestarts(costs, first.ledger, At(costs, first, ops, i));
  }

  /** RESTARTS, EXACTLY. A working day can be restarted at every moment if and only if every fill a list brings goes on
      top of an amount that is on record. */
  lemma DayRestartsExactly(costs: CostModel, first: Session, ops: seq<Operation>)
    requires Working(costs, first, ops)
    ensures (forall i :: 0 <= i <= |ops| ==> Resume(costs, At(costs, first, ops, i).journal).Some?)
            <==> forall i :: 0 <= i < |ops| ==> FitsAt(costs, first, ops, i)
  {
    forall i | 0 <= i <= |ops|
      ensures Resume(costs, At(costs, first, ops, i).journal).Some? <==> Legible(At(costs, first, ops, i))
    {
      RestartsIffLegible(costs, first, ops, i);
    }
    if forall i :: 0 <= i < |ops| ==> FitsAt(costs, first, ops, i) {
      forall i | 0 <= i <= |ops|
        ensures Legible(At(costs, first, ops, i))
      {
        LegibleTo(costs, first, ops, i);
      }
    }
    if forall i :: 0 <= i <= |ops| ==> Legible(At(costs, first, ops, i)) {
      forall i | 0 <= i < |ops|
        ensures FitsAt(costs, first, ops, i)
      {
        assert Legible(At(costs, first, ops, i + 1));
        LegibleMoment(costs, first, ops, i);
      }
    }
  }

  // ---------------------------------------------------------------- standing days are runs of actions

  lemma StandingStepRuns(costs: CostModel, start: Balance, s: Session, op: Operation) returns (run: seq<Event>)
    requires SoundCosts(costs) && Inv(costs, start, s) && MayOperate(costs, s, op)
    requires op.DoReconcile? ==> StandsTo(Adopted(s.orders, op.rows, s.seqNo), op.rows)
    ensures Reaches(costs, s, run, Operate(costs, s, op))
  {
    match op
    case Do(a) =>
      ReachesByAction(costs, s, [], s, a);
      run := [] + [Act(a)];
    case DoReconcile(rows) =>
      var after := Reconcile(costs, s, rows).0;
      MirrorsExactly(costs, start, s, rows);
      run := ReconcileRunsAside(costs, start, s, rows);
      MirroredIsSame(costs, start, Trail(s, s, after), after);
    case Fall =>
      run := [Crash];
      assert run[..|run| - 1] == [];
    case FallIn(rows, n) =>
      var x;
      run, x := MirroredCut(costs, start, s, rows, n);
      assert (run + [Crash])[..|run + [Crash]| - 1] == run;
      run := run + [Crash];
  }

  /** A day on which every list stands is a day of enabled actions and crashes, so everything proved of those holds at
      each of its records. */
  lemma {:induction false} StandingDayRuns(costs: CostModel, first: Session, ops: seq<Operation>, i: nat) returns (run: seq<Event>)
    requires Working(costs, first, ops) && i <= |ops| && forall j :: 0 <= j < i ==> StandsAt(costs, first, ops, j)
    ensures Reaches(costs, first, run, At(costs, first, ops, i))
  {
    run := [];
    if i == 0 {
      FirstMoment(costs, first, ops);
    } else {
      run := StandingDayRuns(costs, first, ops, i - 1);
      var s := At(costs, first, ops, i - 1);
      StandingInv(costs, first, ops, i - 1);
      NextMoment(costs, first, ops, i - 1);
      assert StandsAt(costs, first, ops, i - 1);
      var more := StandingStepRuns(costs, first.ledger, s, ops[i - 1]);
      ReachesOn(costs, first, run, s, more, At(costs, first, ops, i));
      run := run + more;
    }
  }
}
