/** The order manager object: its methods update orders, ledger, sequence number and journal in place
    (src/execution/oms.py, src/execution/service.py). Each is proved equal to its specification on
    session values, and to be a run of session actions, so every theorem about runs applies to it. */
module OrderManagement {
  import opened Contracts
  import opened Accounting
  import opened Recovery
  import opened Sessions
  import opened Invariants
  import opened Reconciling
  import opened Admission
  import Matching
  import Risk

  // ---------------------------------------------------------------- specifications on values

  /** A submit; answer None means the gateway raised after the send was recorded. */
  function Submitted(costs: CostModel, limits: Risk.Limits, blocked: bool, s: Session, i: Intent, q: Quote,
                     w: Surroundings, answer: Option<Outcome>): Session
  {
    match Gate(costs, limits, s, blocked, i, q, w)
    case Some(code) => Next(costs, s, GateReject(i, w.createdAt, code))
    case None =>
      var id := s.seqNo + 1;
      var sent := Next(costs, Next(costs, s, Place(i, w.createdAt, w.ts, w.sentAt)), Note(LiveSend, id));
      if answer.None? then sent else Next(costs, sent, Answer(id, answer.value))
  }

  /** A new order after its answer, if there was one. */
  predicate AnsweredBy(o: Order, id: nat, i: Intent, createdAt: int, answer: Option<Outcome>) {
    && o.id == id && o.intent == i && o.createdAt == createdAt && o.filledQty == 0 && o.filledAmount == 0
    && match answer
       case None => o.status == PendingSubmit && o.ref == NO_REF && o.reject == NotRejected
       case Some(Outcome(OutcomeAccepted, ref)) => o.status == Accepted && o.ref == ref && o.reject == NotRejected
       case Some(Outcome(OutcomeRejected, _)) => o.status == Rejected && o.ref == NO_REF && o.reject == ByBroker
       case Some(Outcome(OutcomeUnknown, _)) => o.status == Unknown && o.ref == NO_REF && o.reject == NotRejected
  }

  /** The records of a send and of its answer. */
  function SendRecords(id: nat, i: Intent, ts: int, answer: Option<Outcome>, status: OrderStatus): seq<Record> {
    [IntentRecord(ts, id, i), Audit(LiveSend, id)] + if answer.Some? then [SubmitResult(id, answer.value, status)] else []
  }

  /** What a submit does to the session, by fields. */
  lemma SubmittedByFields(costs: CostModel, limits: Risk.Limits, blocked: bool, s: Session, i: Intent, q: Quote,
                          w: Surroundings, answer: Option<Outcome>)
    ensures Admissible(costs, limits, s, blocked, i, q, w) <==> Gate(costs, limits, s, blocked, i, q, w).None?
    ensures var x, id := Submitted(costs, limits, blocked, s, i, q, w, answer), s.seqNo + 1;
            && x.seqNo == id && id in x.orders && x.orders == s.orders[id := x.orders[id]] && x.ledger == s.ledger
            && (Gate(costs, limits, s, blocked, i, q, w).None? ==>
                  && AnsweredBy(x.orders[id], id, i, w.createdAt, answer) && x.submitTimes == s.submitTimes + [w.sentAt]
                  && x.journal == s.journal + SendRecords(id, i, w.ts, answer, x.orders[id].status))
            && (Gate(costs, limits, s, blocked, i, q, w).Some? ==>
                  var code := Gate(costs, limits, s, blocked, i, q, w).value;
                  && Refuses(code, costs, limits, s, blocked, i, q, w)
                  && x.journal == s.journal + [RiskReject(id, code)] && x.submitTimes == s.submitTimes
                  && x.orders[id] == Order(id, i, Rejected, w.createdAt, NO_REF, 0, 0, ByGate(code)))
  {
    GateExactly(costs, limits, s, blocked, i, q, w);
  }

  function CancelCheck(s: Session, id: nat): Option<ExecError> {
    if id !in s.orders then Some(NoSuchOrder)
    else if s.orders[id].Terminal() then None
    else if s.orders[id].ref.no.None? then Some(NoBrokerNumber)
    else None
  }

  function Resolved(costs: CostModel, s: Session, rows: seq<Row>, id: nat): (Session, Option<ExecError>) {
    if id !in s.orders then (s, Some(NoSuchOrder))
    else if !s.orders[id].status.Unknown? then (s, Some(NotUnknown))
    else
      var (after, err) := Reconcile(costs, s, rows);
      if err.Some? then (after, err)
      else if id !in after.orders || !after.orders[id].status.Unknown? || after.orders[id].ref.no.Some? then
        (after, Some(MatchedAtBroker))
      else (Next(costs, after, Retire(id)), None)
  }

  /** Orders a reconcile reports as changed: those adopted or given a status record. */
  function ChangedIds(records: seq<Record>): set<nat> {
    if records == [] then {}
    else
      var last := records[|records| - 1];
      ChangedIds(records[..|records| - 1]) + (if last.UnknownAdopted? || last.StatusRecord? then {last.id} else {})
  }

  lemma {:induction false} ChangedConcat(a: seq<Record>, b: seq<Record>)
    ensures ChangedIds(a + b) == ChangedIds(a) + ChangedIds(b)
  {
    if b == [] {
      assert a + b == a;
    } else {
      ChangedConcat(a, b[..|b| - 1]);
      assert (a + b)[..|a + b| - 1] == a + b[..|b| - 1];
    }
  }

  lemma ChangedMore(was: seq<Record>, journal: seq<Record>, n: nat)
    requires n <= |was| && was <= journal
    ensures ChangedIds(journal[n..]) == ChangedIds(was[n..]) + ChangedIds(journal[|was|..])
  {
    ChangedConcat(was[n..], journal[|was|..]);
    assert journal[n..] == was[n..] + journal[|was|..];
  }

  lemma ChangedByOne(was: seq<Record>, r: Record, n: nat)
    requires n <= |was|
    ensures ChangedIds((was + [r])[n..])
            == ChangedIds(was[n..]) + (if r.UnknownAdopted? || r.StatusRecord? then {r.id} else {})
  {
    ChangedMore(was, was + [r], n);
    assert (was + [r])[|was|..] == [r];
  }

  /** A quiet turn that writes a status record. */
  predicate Touches(s: Session, rows: seq<Row>, id: nat) {
    && id in s.orders && RowFor(s.orders[id], rows).Some?
    && var o, row := s.orders[id], RowFor(s.orders[id], rows).value;
       DeriveStatus(row, HasCancelChild(rows, o.ref.no.value)) != Success(o.status) || row.filledQty > o.filledQty
  }

  /** Taking over a fill writes at most a fill record, which changes no order's status. */
  lemma FillPartRecords(costs: CostModel, s: Session, id: nat, row: Row)
    requires id in s.orders
    ensures var t := FillPart(costs, s, id, row);
            && id in t.orders
            && (t.journal == s.journal || exists r: Record :: r.FillRecord? && t.journal == s.journal + [r])
  {
  }

  lemma MoveRecords(s: Session, half: Session, t: Session, id: nat, status: Record)
    requires status.StatusRecord? && status.id == id && t.journal == half.journal + [status]
    requires half.journal == s.journal || exists r: Record :: r.FillRecord? && half.journal == s.journal + [r]
    ensures s.journal <= t.journal && ChangedIds(t.journal[|s.journal|..]) == {id}
  {
    ChangedByOne(half.journal, status, |s.journal|);
    if half.journal == s.journal {
      assert half.journal[|s.journal|..] == [];
    } else {
      var r: Record :| r.FillRecord? && half.journal == s.journal + [r];
      ChangedByOne(s.journal, r, |s.journal|);
      assert s.journal[|s.journal|..] == [];
    }
  }

  lemma QuietTurn(costs: CostModel, s: Session, rows: seq<Row>, id: nat)
    requires SyncOne(costs, s, rows, id).1.None?
    ensures if !Touches(s, rows, id) then SyncOne(costs, s, rows, id).0.journal == s.journal
            else
              var half := FillPart(costs, s, id, RowFor(s.orders[id], rows).value);
              exists st :: SyncOne(costs, s, rows, id).0 == Next(costs, half, Move(id, st))
  {
    if Touches(s, rows, id) {
      var o := s.orders[id];
      var row := RowFor(o, rows).value;
      var st := DeriveStatus(row, HasCancelChild(rows, o.ref.no.value));
      assert st.Success?;
      assert Transition(o.status, st.value) == Success(st.value);
      assert SyncOne(costs, s, rows, id).0 == Next(costs, FillPart(costs, s, id, row), Move(id, st.value));
    }
  }

  /** The status records of a turn name exactly the order the turn reports. */
  lemma TouchedIsChanged(costs: CostModel, s: Session, rows: seq<Row>, id: nat)
    requires SyncOne(costs, s, rows, id).1.None?
    ensures var t := SyncOne(costs, s, rows, id).0;
            s.journal <= t.journal && ChangedIds(t.journal[|s.journal|..]) == if Touches(s, rows, id) then {id} else {}
  {
    var t := SyncOne(costs, s, rows, id).0;
    QuietTurn(costs, s, rows, id);
    if Touches(s, rows, id) {
      var row := RowFor(s.orders[id], rows).value;
      var half := FillPart(costs, s, id, row);
      FillPartRecords(costs, s, id, row);
      var st :| t == Next(costs, half, Move(id, st));
      MoveRecords(s, half, t, id, StatusRecord(id, st, half.orders[id].filledQty));
    } else {
      assert t.journal[|s.journal|..] == [];
    }
  }

  ghost predicate RunsTo(costs: CostModel, s: Session, t: Session) {
    exists run :: Reaches(costs, s, run, t)
  }

  lemma KnownInsert(orders: Orders, id: nat, o: Order)
    requires id !in orders && !o.Numbered()
    ensures Known(orders[id := o]) == Known(orders)
  {
    forall no | no in Known(orders)
      ensures no in Known(orders[id := o])
    {
      var k :| k in orders && orders[k].Numbered() && orders[k].ref.no.value == no;
      assert orders[id := o][k] == orders[k];
    }
  }

  lemma SendRuns(costs: CostModel, s: Session, place: Action, answer: Option<Outcome>)
    requires Shape(s) && place.Place? && Enabled(s, place)
    requires answer.Some? ==> PlainOutcome(answer.value) && FreshRef(s.orders, answer.value.ref)
    ensures var id := s.seqNo + 1;
            var sent := Next(costs, Next(costs, s, place), Note(LiveSend, id));
            RunsTo(costs, s, if answer.None? then sent else Next(costs, sent, Answer(id, answer.value)))
  {
    var id := s.seqNo + 1;
    var send := Note(LiveSend, id);
    ReachesByAction(costs, s, [], s, place);
    var s1 := Next(costs, s, place);
    ReachesByAction(costs, s, [] + [Act(place)], s1, send);
    var s2 := Next(costs, s1, send);
    if answer.Some? {
      KnownInsert(s.orders, id, s2.orders[id]);
      ReachesByAction(costs, s, [] + [Act(place)] + [Act(send)], s2, Answer(id, answer.value));
    }
  }

  lemma SubmitRuns(costs: CostModel, limits: Risk.Limits, blocked: bool, s: Session, i: Intent, q: Quote,
                   w: Surroundings, answer: Option<Outcome>)
    requires Shape(s) && NoPending(s.orders)
    requires answer.Some? ==> PlainOutcome(answer.value) && FreshRef(s.orders, answer.value.ref)
    ensures RunsTo(costs, s, Submitted(costs, limits, blocked, s, i, q, w, answer))
  {
    var gate := Gate(costs, limits, s, blocked, i, q, w);
    if gate.Some? {
      ReachesByAction(costs, s, [], s, GateReject(i, w.createdAt, gate.value));
    } else {
      GateAdmits(costs, limits, s, blocked, i, q, w);
      SendRuns(costs, s, Place(i, w.createdAt, w.ts, w.sentAt), answer);
    }
  }

  /** Resolving is a reconcile and, if the order is still in doubt and unnumbered, its retirement. */
  lemma ResolveRuns(costs: CostModel, start: Balance, s: Session, rows: seq<Row>, id: nat)
    requires SoundCosts(costs) && Inv(costs, start, s) && NoPending(s.orders) && NamedRows(rows)
    requires AmountsStand(AdoptTo(costs, s, rows, s.seqNo).0.orders, rows)
    ensures RunsTo(costs, s, Resolved(costs, s, rows, id).0)
  {
    assert Reaches(costs, s, [], s);
    var run := ReconcileRuns(costs, start, s, rows);
    if Resolved(costs, s, rows, id).1.None? {
      ReachesByAction(costs, s, run, Reconcile(costs, s, rows).0, Retire(id));
    }
  }

  // ---------------------------------------------------------------- the object

  class OrderManager {
    const costs: CostModel
    const limits: Risk.Limits
    const ledger: Ledger
    var orders: Orders
    var seqNo: nat
    var submitTimes: seq<int>
    var journal: seq<Record>
    var blocked: bool
    var closed: bool

    function Value(): Session
      reads this, ledger
    {
      Session(orders, ledger.Value(), seqNo, submitTimes, journal)
    }

    ghost predicate Valid()
      reads this, ledger
    {
      ledger.costs == costs
    }

    /** The session to continue, with the "session_start" record of this process appended. */
    constructor (from: Session, holdings: seq<Holding>, costs: CostModel, limits: Risk.Limits)
      ensures Valid() && fresh(ledger) && this.costs == costs && this.limits == limits
      ensures Value() == Next(costs, from, Start(holdings))
      ensures !blocked && !closed
    {
      this.costs := costs;
      this.limits := limits;
      this.ledger := new Ledger(from.ledger, costs);
      orders, seqNo, submitTimes := from.orders, from.seqNo, from.submitTimes;
      journal := from.journal + [SessionStart(holdings)];
      blocked, closed := false, false;
    }

    method BlockSubmits()
      requires Valid()
      modifies this`blocked
      ensures Valid() && blocked
    {
      blocked := true;
    }

    method Close()
      requires Valid()
      modifies this`closed
      ensures Valid() && closed
    {
      closed := true;
    }

    /** Checks an intent, sends it and records the answer; answer None is an exception out of the
        gateway, after which the session must end. */
    method Submit(i: Intent, q: Quote, w: Surroundings, answer: Option<Outcome>) returns (r: Result<Order, ExecError>)
      requires Valid()
      modifies this`orders, this`seqNo, this`submitTimes, this`journal
      ensures Valid()
      ensures old(closed) ==> r == Failure(SessionClosed) && Value() == old(Value())
      ensures !old(closed) ==>
                && Value() == Submitted(costs, limits, blocked, old(Value()), i, q, w, answer)
                && (r.Success? ==> r.value == orders[seqNo])
                && (r.Failure? <==> Gate(costs, limits, old(Value()), blocked, i, q, w).None? && answer.None?)
      ensures !old(closed) && Admissible(costs, limits, old(Value()), blocked, i, q, w) ==>
                && seqNo == old(seqNo) + 1 && orders == old(orders)[seqNo := orders[seqNo]]
                && AnsweredBy(orders[seqNo], seqNo, i, w.createdAt, answer) && submitTimes == old(submitTimes) + [w.sentAt]
                && journal == old(journal) + SendRecords(seqNo, i, w.ts, answer, orders[seqNo].status)
      ensures !old(closed) && !Admissible(costs, limits, old(Value()), blocked, i, q, w) ==>
                exists code :: && Refuses(code, costs, limits, old(Value()), blocked, i, q, w)
                               && journal == old(journal) + [RiskReject(old(seqNo) + 1, code)] && submitTimes == old(submitTimes)
                               && seqNo == old(seqNo) + 1 && orders == old(orders)[seqNo := orders[seqNo]]
                               && r == Success(Order(seqNo, i, Rejected, w.createdAt, NO_REF, 0, 0, ByGate(code)))
    {
      if closed {
        return Failure(SessionClosed);
      }
      SubmittedByFields(costs, limits, blocked, Value(), i, q, w, answer);
      var verdict := Gate(costs, limits, Value(), blocked, i, q, w);
      if verdict.Some? {
        RefuseIntent(i, w.createdAt, verdict.value);
        return Success(orders[seqNo]);
      }
      PlaceIntent(i, w);
      Append(Audit(LiveSend, seqNo));
      if answer.None? {
        return Failure(GatewayRaised);
      }
      RecordAnswer(seqNo, answer.value);
      r := Success(orders[seqNo]);
    }

    method Append(r: Record)
      requires Valid()
      modifies this`journal
      ensures Valid() && Value() == Log(old(Value()), r)
    {
      journal := journal + [r];
    }

    method RefuseIntent(i: Intent, createdAt: int, code: RejectCode)
      requires Valid()
      modifies this`orders, this`seqNo, this`journal
      ensures Valid() && Value() == Next(costs, old(Value()), GateReject(i, createdAt, code))
    {
      seqNo := seqNo + 1;
      orders := orders[seqNo := Order(seqNo, i, Rejected, createdAt, NO_REF, 0, 0, ByGate(code))];
      Append(RiskReject(seqNo, code));
    }

    method PlaceIntent(i: Intent, w: Surroundings)
      requires Valid()
      modifies this`orders, this`seqNo, this`submitTimes, this`journal
      ensures Valid() && Value() == Next(costs, old(Value()), Place(i, w.createdAt, w.ts, w.sentAt))
    {
      seqNo := seqNo + 1;
      orders := orders[seqNo := Order(seqNo, i, PendingSubmit, w.createdAt, NO_REF, 0, 0, NotRejected)];
      Append(IntentRecord(w.ts, seqNo, i));
      submitTimes := submitTimes + [w.sentAt];
    }

    method RecordAnswer(id: nat, outcome: Outcome)
      requires Valid() && id in orders
      modifies this`orders, this`journal
      ensures Valid() && Value() == Next(costs, old(Value()), Answer(id, outcome))
    {
      var order := orders[id];
      match outcome.kind {
        case OutcomeAccepted => order := order.(status := OrderStatus.Accepted, ref := outcome.ref);
        case OutcomeRejected => order := order.(status := Rejected, reject := ByBroker);
        case OutcomeUnknown => order := order.(status := Unknown);
      }
      orders := orders[id := order];
      Append(SubmitResult(id, outcome, order.status));
    }

    /** Requests a cancel; only a later reconcile changes the order. */
    method Cancel(id: nat, answer: Outcome) returns (r: Result<Order, ExecError>)
      requires Valid()
      modifies this`journal
      ensures Valid()
      ensures old(closed) ==> r == Failure(SessionClosed) && Value() == old(Value())
      ensures !old(closed) && CancelCheck(old(Value()), id).Some? ==>
                r == Failure(CancelCheck(old(Value()), id).value) && Value() == old(Value())
      ensures !old(closed) && CancelCheck(old(Value()), id).None? ==>
                && r == Success(orders[id])
                && Value() == (if orders[id].Terminal() then old(Value())
                               else Next(costs, Next(costs, old(Value()), Note(LiveSend, id)), Note(CancelResult, id)))
      ensures !old(closed) ==>
                && (id !in orders ==> r == Failure(NoSuchOrder) && journal == old(journal))
                && (id in orders && orders[id].status in {Filled, Cancelled, Rejected} ==> r == Success(orders[id]) && journal == old(journal))
                && (id in orders && orders[id].status !in {Filled, Cancelled, Rejected} && orders[id].ref.no.None? ==>
                      r == Failure(NoBrokerNumber) && journal == old(journal))
                && (id in orders && orders[id].status !in {Filled, Cancelled, Rejected} && orders[id].ref.no.Some? ==>
                      r == Success(orders[id]) && journal == old(journal) + [Audit(LiveSend, id), Audit(CancelResult, id)])
    {
      if closed {
        return Failure(SessionClosed);
      }
      if id !in orders {
        return Failure(NoSuchOrder);
      }
      if orders[id].Terminal() {
        return Success(orders[id]);
      }
      if orders[id].ref.no.None? {
        return Failure(NoBrokerNumber);
      }
      Append(Audit(LiveSend, id));
      Append(Audit(CancelResult, id));
      r := Success(orders[id]);
    }

    /** Reflects the broker's cumulative fills; returns the ids of the orders it changed. */
    method ReconcileOrders(rows: seq<Row>) returns (r: Result<set<nat>, ExecError>)
      requires Valid()
      modifies this`orders, this`journal, ledger
      ensures Valid()
      ensures old(closed) ==> r == Failure(SessionClosed) && Value() == old(Value())
      ensures !old(closed) ==>
                && Value() == Reconcile(costs, old(Value()), rows).0
                && old(journal) <= journal
                && (match Reconcile(costs, old(Value()), rows).1
                    case Some(e) => r == Failure(e)
                    case None => r == Success(ChangedIds(journal[|old(journal)|..])))
    {
      if closed {
        return Failure(SessionClosed);
      }
      ghost var before := journal;
      var adopted := AdoptOrders(rows);
      ghost var between := journal;
      r := SyncOrders(rows);
      if r.Success? {
        ChangedMore(between, journal, |before|);
        r := Success(adopted + r.value);
      }
    }

    /** The first loop: adopts broker rows for orders in doubt. */
    method AdoptOrders(rows: seq<Row>) returns (changed: set<nat>)
      requires Valid()
      modifies this`orders, this`journal
      ensures Valid() && Value() == AdoptTo(costs, old(Value()), rows, seqNo).0
      ensures old(journal) <= journal && changed == ChangedIds(journal[|old(journal)|..])
      ensures NamedRows(rows) ==> forall id :: id in old(orders) && 1 <= id <= seqNo ==> Matching.Given(old(orders), orders, rows, id)
    {
      ghost var s := Value();
      if NamedRows(rows) {
        Matching.AllGiven(costs, s, rows);
      }
      var known := Known(orders);
      changed := {};
      for id := 1 to seqNo + 1
        invariant Valid()
        invariant AdoptTo(costs, s, rows, id - 1) == (Value(), known)
        invariant s.journal <= journal && changed == ChangedIds(journal[|s.journal|..])
      {
        ghost var was := journal;
        if id in orders && orders[id].status.Unknown? {
          var found := Candidates(orders[id], rows, known);
          if |found| == 1 {
            orders := orders[id := orders[id].(ref := RefOf(found[0]))];
            known := known + {found[0].no};
            Append(UnknownAdopted(id, RefOf(found[0])));
            changed := changed + {id};
            ChangedByOne(was, UnknownAdopted(id, RefOf(found[0])), |s.journal|);
          } else if |found| > 1 {
            Append(Audit(UnknownAmbiguous, id));
            ChangedByOne(was, Audit(UnknownAmbiguous, id), |s.journal|);
          }
        }
      }
    }

    /** The second loop: takes over fills and statuses until an order raises. */
    method SyncOrders(rows: seq<Row>) returns (r: Result<set<nat>, ExecError>)
      requires Valid()
      modifies this`orders, this`journal, ledger
      ensures Valid() && Value() == SyncTo(costs, old(Value()), rows, seqNo).0
      ensures old(journal) <= journal
      ensures match SyncTo(costs, old(Value()), rows, seqNo).1
              case Some(e) => r == Failure(e)
              case None => r == Success(ChangedIds(journal[|old(journal)|..]))
    {
      ghost var s := Value();
      var changed: set<nat> := {};
      for id := 1 to seqNo + 1
        invariant Valid()
        invariant SyncTo(costs, s, rows, id - 1) == (Value(), None)
        invariant s.journal <= journal && changed == ChangedIds(journal[|s.journal|..])
      {
        var err;
        changed, err := SyncOrder(s, rows, id, changed);
        if err.Some? {
          ErrorSticks(costs, s, rows, id, seqNo);
          return Failure(err.value);
        }
      }
      r := Success(changed);
    }

    /** The turn of one order in a second loop that began at `s`; adds it to the changed orders when the
        turn wrote a status record. */
    method SyncOrder(ghost s: Session, rows: seq<Row>, id: nat, changed: set<nat>)
      returns (after: set<nat>, err: Option<ExecError>)
      requires Valid() && id > 0 && SyncTo(costs, s, rows, id - 1) == (Value(), None)
      requires s.journal <= journal && changed == ChangedIds(journal[|s.journal|..])
      modifies this`orders, this`journal, ledger
      ensures Valid() && SyncTo(costs, s, rows, id) == (Value(), err)
      ensures s.journal <= journal
      ensures err.None? ==> after == ChangedIds(journal[|s.journal|..])
    {
      ghost var before := Value();
      var touched;
      touched, err := TakeRow(rows, id);
      after := if touched then changed + {id} else changed;
      TurnAppends(costs, before, rows, id);
      if err.None? {
        TouchedIsChanged(costs, before, rows, id);
        ChangedMore(before.journal, journal, |s.journal|);
      }
    }

    method TakeRow(rows: seq<Row>, id: nat) returns (touched: bool, err: Option<ExecError>)
      requires Valid()
      modifies this`orders, this`journal, ledger
      ensures Valid() && (Value(), err) == SyncOne(costs, old(Value()), rows, id)
      ensures err.None? ==> (touched <==> Touches(old(Value()), rows, id))
    {
      touched, err := false, None;
      if id !in orders || orders[id].Terminal() || orders[id].ref.no.None? {
        return;
      }
      var row? := RowOf(rows, orders[id].ref.no.value);
      if row?.None? {
        return;
      }
      var row, order := row?.value, orders[id];
      if row.filledQty < order.filledQty || row.filledQty > order.intent.qty {
        Append(Audit(IntegrityViolation, id));
        return false, Some(FillOutOfRange);
      }
      var derived := DeriveStatus(row, HasCancelChild(rows, order.ref.no.value));
      if derived.Failure? {
        return false, Some(derived.error);
      }
      var deltaQty, deltaAmount := row.filledQty - order.filledQty, row.filledAmount - order.filledAmount;
      if deltaQty > 0 {
        var pnl := ledger.Fill(order.intent.symbol, order.intent.side, deltaQty, deltaAmount);
        if pnl.Failure? {
          return false, Some(pnl.error);
        }
        Append(FillRecord(id, deltaQty, deltaAmount, row.filledQty, row.filledAmount));
      }
      orders := orders[id := order.(filledQty := row.filledQty, filledAmount := row.filledAmount)];
      var moved := Transition(order.status, derived.value);
      if moved.Failure? {
        return false, Some(moved.error);
      }
      if moved.value != order.status || deltaQty > 0 {
        orders := orders[id := orders[id].(status := moved.value)];
        Append(StatusRecord(id, moved.value, row.filledQty));
        touched := true;
      }
    }

    /** Operator override: retires an order in doubt that the broker list does not contain. */
    method ResolveUnknown(id: nat, rows: seq<Row>) returns (r: Result<Order, ExecError>)
      requires Valid()
      modifies this`orders, this`journal, ledger
      ensures Valid()
      ensures old(closed) ==> r == Failure(SessionClosed) && Value() == old(Value())
      ensures !old(closed) ==>
                && Value() == Resolved(costs, old(Value()), rows, id).0
                && (match Resolved(costs, old(Value()), rows, id).1
                    case Some(e) => r == Failure(e)
                    case None => id in orders && r == Success(orders[id]))
      ensures r.Success? ==>
                && id in old(orders) && old(orders)[id].status == Unknown && Reconcile(costs, old(Value()), rows).1.None?
                && id in orders && orders[id].status == Rejected && orders[id].reject == ByOperator && orders[id].ref.no.None?
                && journal == Reconcile(costs, old(Value()), rows).0.journal + [UnknownResolved(id)]
    {
      if closed {
        return Failure(SessionClosed);
      }
      if id !in orders {
        return Failure(NoSuchOrder);
      }
      if !orders[id].status.Unknown? {
        return Failure(NotUnknown);
      }
      var reconciled := ReconcileOrders(rows);
      if reconciled.Failure? {
        return Failure(reconciled.error);
      }
      if id !in orders || !orders[id].status.Unknown? || orders[id].ref.no.Some? {
        return Failure(MatchedAtBroker);
      }
      orders := orders[id := orders[id].(status := Rejected, reject := ByOperator)];
      Append(UnknownResolved(id));
      r := Success(orders[id]);
    }
  }

  lemma {:induction false} ErrorSticks(costs: CostModel, s: Session, rows: seq<Row>, k: nat, n: nat)
    requires k <= n && SyncTo(costs, s, rows, k).1.Some?
    ensures SyncTo(costs, s, rows, n) == SyncTo(costs, s, rows, k)
  {
    if k < n {
      ErrorSticks(costs, s, rows, k, n - 1);
    }
  }

  /** Assembles the manager of a new process: restore the day's journal; without a session_start in it
      take the positions from the account; then record "session_start". */
  method Assemble(records: seq<Record>, holdings: seq<Holding>, costs: CostModel, limits: Risk.Limits)
    returns (r: Result<OrderManager, RestoreError>)
    requires HoldingPositions(holdings).Success?
    ensures match Restore(records, false, costs)
            case Failure(e) => r == Failure(e)
            case Success(rec) =>
              && r.Success? && fresh(r.value) && fresh(r.value.ledger) && r.value.Valid() && r.value.costs == costs
              && var balance := if rec.ledger.Some? then rec.ledger.value
                                else Balance(0, 0, HoldingPositions(holdings).value);
                 r.value.Value()
                 == Next(costs, Session(rec.orders, balance, rec.nextSeq, rec.submitTimes, records), Start(holdings))
  {
    var restored := RestoreSession(records, false, costs);
    if restored.Failure? {
      return Failure(restored.error);
    }
    var rec := restored.value;
    var balance := if rec.ledger.Some? then rec.ledger.value else Balance(0, 0, HoldingPositions(holdings).value);
    var manager := new OrderManager(Session(rec.orders, balance, rec.nextSeq, rec.submitTimes, records), holdings, costs, limits);
    r := Success(manager);
  }
}
