/** Working days on which every order passed the gate, with one clock: no order is recorded while the kill switch is on,
    and never more than the limit within a minute, restarts included. */
module GatedDays {
  import opened Contracts
  import opened Accounting
  import opened Recovery
  import opened Sessions
  import opened Reconciling
  import opened Risk
  import opened Admission
  import opened RestartedReconcile
  import opened Operations
  import opened WorkingDays

  // ---------------------------------------------------------------- the days

  /** The kill switch as a function of the clock. */
  type Switch = int -> bool

  /** An operation that places an order does so because the order was admissible then, with every reading of the clock the
      same. */
  ghost predicate Gated(costs: CostModel, limits: Limits, on: Switch, s: Session, op: Operation) {
    op.Do? && op.action.Place? ==>
      exists blocked, q, w ::
        && Admissible(costs, limits, s, blocked, op.action.intent, q, w)
        && w.killSwitch == on(w.now) && op.action == Place(op.action.intent, w.now, w.now, w.now)
  }

  ghost predicate AllGated(costs: CostModel, limits: Limits, on: Switch, first: Session, ops: seq<Operation>) {
    forall i :: 0 <= i < |ops| ==> Gated(costs, limits, on, At(costs, first, ops, i), ops[i])
  }

  /** A submit that passes the gate is such an operation. */
  lemma SubmitIsGated(costs: CostModel, limits: Limits, on: Switch, s: Session, blocked: bool, i: Intent, q: Quote, w: Surroundings)
    requires Gate(costs, limits, s, blocked, i, q, w).None? && w.killSwitch == on(w.now)
    requires w.now == w.createdAt == w.ts == w.sentAt
    ensures Gated(costs, limits, on, s, Do(Place(i, w.createdAt, w.ts, w.sentAt)))
  {
    GateExactly(costs, limits, s, blocked, i, q, w);
  }

  // ---------------------------------------------------------------- counting intents

  /** The orders recorded in the minute after a moment. */
  function InMinute(journal: seq<Record>, from: int): nat {
    if journal == [] then 0
    else
      var last := journal[|journal| - 1];
      InMinute(journal[..|journal| - 1], from) + if last.IntentRecord? && from < last.ts <= from + 60 then 1 else 0
  }

  lemma {:induction false} MinuteCounted(journal: seq<Record>, from: int, since: int)
    requires since <= from
    ensures InMinute(journal, from) <= CountAfter(SubmitTimes(journal), since)
  {
    if journal != [] {
      MinuteCounted(journal[..|journal| - 1], from, since);
    }
  }

  lemma IntentAdded(journal: seq<Record>, r: Record, from: int)
    ensures InMinute(journal + [r], from) == InMinute(journal, from) + if r.IntentRecord? && from < r.ts <= from + 60 then 1 else 0
    ensures SubmitTimes(journal + [r]) == if r.IntentRecord? then SubmitTimes(journal) + [r.ts] else SubmitTimes(journal)
  {
    assert (journal + [r])[..|journal + [r]| - 1] == journal;
  }

  lemma {:induction false} PlainAdds(before: seq<Record>, after: seq<Record>, from: int)
    requires OpensNone(before, after)
    ensures InMinute(after, from) == InMinute(before, from) && SubmitTimes(after) == SubmitTimes(before)
  {
    if |before| < |after| {
      PlainAdds(before, after[..|after| - 1], from);
    } else {
      assert before == after;
    }
  }

  // ---------------------------------------------------------------- what every moment keeps

  /** The send times in memory are those on record. */
  predicate TimesOnRecord(s: Session) { s.submitTimes == SubmitTimes(s.journal) }

  /** In any minute no more intents than the limit. */
  ghost predicate RateKept(limits: Limits, s: Session) {
    forall from :: InMinute(s.journal, from) <= if limits.maxOrdersPerMinute > 0 then limits.maxOrdersPerMinute else 0
  }

  /** No intent from a time at which the switch was on. */
  ghost predicate SwitchKept(on: Switch, s: Session) {
    forall k :: 0 <= k < |s.journal| && s.journal[k].IntentRecord? ==> !on(s.journal[k].ts)
  }

  ghost predicate RulesKept(limits: Limits, on: Switch, s: Session) {
    TimesOnRecord(s) && RateKept(limits, s) && SwitchKept(on, s)
  }

  lemma PlaceKeepsRate(limits: Limits, s: Session, now: int, id: nat, i: Intent)
    requires TimesOnRecord(s) && RateKept(limits, s) && |LastMinute(s.submitTimes, now)| < limits.maxOrdersPerMinute
    ensures forall from :: InMinute(s.journal + [IntentRecord(now, id, i)], from) <= limits.maxOrdersPerMinute
  {
    forall from
      ensures InMinute(s.journal + [IntentRecord(now, id, i)], from) <= limits.maxOrdersPerMinute
    {
      IntentAdded(s.journal, IntentRecord(now, id, i), from);
      assert InMinute(s.journal, from) <= limits.maxOrdersPerMinute;
      if from < now <= from + 60 {
        MinuteCounted(s.journal, from, now - 60);
        CountIsLastMinute(s.submitTimes, now);
      }
    }
  }

  lemma PlaceKeepsRules(costs: CostModel, limits: Limits, on: Switch, s: Session, a: Action)
    requires RulesKept(limits, on, s) && a.Place? && Gated(costs, limits, on, s, Do(a))
    ensures RulesKept(limits, on, Next(costs, s, a))
  {
    var op := Do(a);
    var blocked, q, w :| Admissible(costs, limits, s, blocked, op.action.intent, q, w)
                         && w.killSwitch == on(w.now) && op.action == Place(op.action.intent, w.now, w.now, w.now);
    var r := IntentRecord(w.now, s.seqNo + 1, a.intent);
    assert Next(costs, s, a).journal == s.journal + [r];
    PlaceKeepsRate(limits, s, w.now, s.seqNo + 1, a.intent);
    IntentAdded(s.journal, r, 0);
  }

  lemma SameRules(limits: Limits, on: Switch, s: Session, t: Session)
    requires RulesKept(limits, on, s) && OpensNone(s.journal, t.journal) && TimesOnRecord(t)
    ensures RulesKept(limits, on, t)
  {
    forall from
      ensures InMinute(t.journal, from) == InMinute(s.journal, from)
    {
      PlainAdds(s.journal, t.journal, from);
    }
    forall k | 0 <= k < |t.journal| && t.journal[k].IntentRecord?
      ensures !on(t.journal[k].ts)
    {
      assert t.journal[k] == s.journal[k];
    }
  }

  lemma GateRejectKeepsRules(costs: CostModel, limits: Limits, on: Switch, s: Session, a: Action)
    requires RulesKept(limits, on, s) && a.GateReject?
    ensures RulesKept(limits, on, Next(costs, s, a))
  {
    var r := RiskReject(s.seqNo + 1, a.code);
    forall from
      ensures InMinute(s.journal + [r], from) == InMinute(s.journal, from)
    {
      IntentAdded(s.journal, r, from);
    }
    IntentAdded(s.journal, r, 0);
  }

  lemma PlainActionTimes(costs: CostModel, s: Session, a: Action)
    requires !a.Place? && !a.GateReject?
    ensures OpensNone(s.journal, Next(costs, s, a).journal) && Next(costs, s, a).submitTimes == s.submitTimes
  {
  }

  lemma {:induction false} AdoptionTimes(costs: CostModel, s: Session, rows: seq<Row>, n: nat)
    ensures AdoptTo(costs, s, rows, n).0.submitTimes == s.submitTimes
  {
    if n > 0 {
      AdoptionTimes(costs, s, rows, n - 1);
    }
  }

  lemma TurnTimes(costs: CostModel, s: Session, rows: seq<Row>, id: nat)
    ensures SyncOne(costs, s, rows, id).0.submitTimes == s.submitTimes
  {
  }

  lemma {:induction false} SyncTimes(costs: CostModel, s: Session, rows: seq<Row>, n: nat)
    ensures SyncTo(costs, s, rows, n).0.submitTimes == s.submitTimes
  {
    if n > 0 {
      SyncTimes(costs, s, rows, n - 1);
      TurnTimes(costs, SyncTo(costs, s, rows, n - 1).0, rows, n);
    }
  }

  lemma ReconcileRules(costs: CostModel, limits: Limits, on: Switch, s: Session, rows: seq<Row>)
    requires RulesKept(limits, on, s)
    ensures RulesKept(limits, on, Reconcile(costs, s, rows).0)
  {
    var t := Reconcile(costs, s, rows).0;
    ReconcilePlain(costs, s, rows);
    AdoptionTimes(costs, s, rows, s.seqNo);
    SyncTimes(costs, AdoptTo(costs, s, rows, s.seqNo).0, rows, s.seqNo);
    PlainAdds(s.journal, t.journal, 0);
    SameRules(limits, on, s, t);
  }

  lemma CutRules(costs: CostModel, limits: Limits, on: Switch, s: Session, rows: seq<Row>, n: nat)
    requires RulesKept(limits, on, s) && CutRestarts(costs, s, rows, n)
    ensures RulesKept(limits, on, CutResumed(costs, s, rows, n))
  {
    ReconcilePlain(costs, s, rows);
    PrefixPlain(s.journal, Reconcile(costs, s, rows).0.journal, n);
    SameRules(limits, on, s, CutResumed(costs, s, rows, n));
  }

  lemma OperationRules(costs: CostModel, limits: Limits, on: Switch, s: Session, op: Operation)
    requires RulesKept(limits, on, s) && MayOperate(costs, s, op) && Gated(costs, limits, on, s, op)
    ensures RulesKept(limits, on, Operate(costs, s, op))
  {
    match op
    case Do(a) =>
      if a.Place? {
        PlaceKeepsRules(costs, limits, on, s, a);
      } else if a.GateReject? {
        GateRejectKeepsRules(costs, limits, on, s, a);
      } else {
        PlainActionTimes(costs, s, a);
        PlainAdds(s.journal, Next(costs, s, a).journal, 0);
        SameRules(limits, on, s, Next(costs, s, a));
      }
    case DoReconcile(rows) => ReconcileRules(costs, limits, on, s, rows);
    case Fall => SameRules(limits, on, s, Operate(costs, s, op));
    case FallIn(rows, n) => CutRules(costs, limits, on, s, rows, n);
  }

  /** THE GATE OVER WHOLE DAYS. At every moment of a working day on which every order passed the gate, with one clock: no
      recorded order is from a time at which the kill switch was on, and any sixty seconds hold at most the limit of them,
      whatever was restarted in between and whatever the clock does. */
  lemma {:induction false} GateHolds(costs: CostModel, limits: Limits, on: Switch, first: Session, ops: seq<Operation>, i: nat)
    requires Working(costs, first, ops) && AllGated(costs, limits, on, first, ops) && i <= |ops|
    ensures RateKept(limits, At(costs, first, ops, i)) && SwitchKept(on, At(costs, first, ops, i))
    ensures TimesOnRecord(At(costs, first, ops, i))
  {
    if i == 0 {
      FirstMoment(costs, first, ops);
      NothingRecorded(limits, on, first);
    } else {
      GateHolds(costs, limits, on, first, ops, i - 1);
      NextMoment(costs, first, ops, i - 1);
      OperationRules(costs, limits, on, At(costs, first, ops, i - 1), ops[i - 1]);
    }
  }

  lemma NothingRecorded(limits: Limits, on: Switch, first: Session)
    requires Initial(first)
    ensures RulesKept(limits, on, first)
  {
    var holdings :| FirstSession(first, holdings);
    assert first.journal == [] + [SessionStart(holdings)];
    forall from
      ensures InMinute(first.journal, from) == 0
    {
      IntentAdded([], SessionStart(holdings), from);
    }
    IntentAdded([], SessionStart(holdings), 0);
  }
}
