/** What a journal means to the restore, record by record: which journals it accepts, and which record decides each field
    of a rebuilt order. */
module Restoring {
  import opened Contracts
  import opened Accounting
  import opened Recovery

  // ---------------------------------------------------------------- the records of one order

  /** What a record can say about a sent order: that it was intended, what was filled, what its status is, which broker order
      it is, and who rejected it. */
  datatype Saying = Intended | Filling | Standing | Numbering | Judging

  predicate Says(r: Record, id: nat, what: Saying) {
    match what
    case Intended => r.IntentRecord? && r.id == id
    case Filling => r.FillRecord? && r.id == id
    case Standing => (r.SubmitResult? || r.StatusRecord? || r.UnknownResolved?) && r.id == id
    case Numbering => (r.SubmitResult? || r.UnknownAdopted?) && r.id == id
    case Judging => (r.SubmitResult? || r.UnknownResolved?) && r.id == id
  }

  /** The last of the first n records that says it. */
  predicate IsLast(records: seq<Record>, n: nat, id: nat, what: Saying, k: int)
    requires n <= |records|
  {
    0 <= k < n && Says(records[k], id, what) && forall j :: k < j < n ==> !Says(records[j], id, what)
  }

  predicate Unsaid(records: seq<Record>, n: nat, id: nat, what: Saying)
    requires n <= |records|
  {
    forall j :: 0 <= j < n ==> !Says(records[j], id, what)
  }

  // ---------------------------------------------------------------- an order by its records

  /** The cumulative fill is that of the last fill record, or nothing. */
  ghost predicate FilledTo(records: seq<Record>, n: nat, id: nat, qty: int, amount: int)
    requires n <= |records|
  {
    || (Unsaid(records, n, id, Filling) && qty == 0 && amount == 0)
    || exists k :: IsLast(records, n, id, Filling, k) && records[k].cumQty == qty && records[k].cumAmount == amount
  }

  function StatusIn(r: Record): OrderStatus
    requires r.SubmitResult? || r.StatusRecord? || r.UnknownResolved?
  {
    if r.UnknownResolved? then Rejected else r.status
  }

  ghost predicate StandsAt(records: seq<Record>, n: nat, id: nat, status: OrderStatus)
    requires n <= |records|
  {
    || (Unsaid(records, n, id, Standing) && status == PendingSubmit)
    || exists k :: IsLast(records, n, id, Standing, k) && StatusIn(records[k]) == status
  }

  ghost predicate NumberedAs(records: seq<Record>, n: nat, id: nat, ref: BrokerRef)
    requires n <= |records|
  {
    || (Unsaid(records, n, id, Numbering) && ref == NO_REF)
    || exists k :: IsLast(records, n, id, Numbering, k) && ref == (if records[k].SubmitResult? then records[k].outcome.ref else records[k].ref)
  }

  ghost predicate JudgedAs(records: seq<Record>, n: nat, id: nat, reject: Rejection)
    requires n <= |records|
  {
    || (Unsaid(records, n, id, Judging) && reject == NotRejected)
    || exists k :: IsLast(records, n, id, Judging, k)
                   && reject == if records[k].UnknownResolved? then ByOperator
                                else if records[k].status == Rejected then ByBroker else NotRejected
  }

  /** The order as the first n records tell it. */
  ghost predicate Told(records: seq<Record>, n: nat, id: nat, o: Order)
    requires n <= |records|
  {
    && (exists i :: 0 <= i < n && Says(records[i], id, Intended) && o.intent == records[i].intent && o.createdAt == records[i].ts)
    && o.id == id && FilledTo(records, n, id, o.filledQty, o.filledAmount) && StandsAt(records, n, id, o.status)
    && NumberedAs(records, n, id, o.ref) && JudgedAs(records, n, id, o.reject)
  }

  /** The record fits those before it: an intent is new, everything else follows its intent, a fill goes on from the fill
      before it and stays within the order, and a status names the fill so far. */
  ghost predicate Acceptable(records: seq<Record>, k: nat)
    requires k < |records|
  {
    var r := records[k];
    match r
    case SessionStart(_) => true
    case PositionMismatch => true
    case RiskReject(_, _) => true
    case IntentRecord(_, id, _) => Unsaid(records, k, id, Intended)
    case FillRecord(id, dq, da, cq, ca) =>
      && FilledTo(records, k, id, cq - dq, ca - da) && dq > 0 && da >= 0
      && exists i :: 0 <= i < k && Says(records[i], id, Intended) && cq <= records[i].intent.qty
    case StatusRecord(id, _, qty) =>
      && !Unsaid(records, k, id, Intended)
      && ((Unsaid(records, k, id, Filling) && qty == 0) || exists j :: IsLast(records, k, id, Filling, j) && records[j].cumQty == qty)
    case _ => !Unsaid(records, k, r.id, Intended)
  }

  /** What is wrong with a record that does not fit. */
  ghost predicate Complains(records: seq<Record>, k: nat, e: RestoreError)
    requires k < |records|
  {
    var r := records[k];
    if r.IntentRecord? then e == DuplicateIntent
    else if r.SessionStart? || r.PositionMismatch? || r.RiskReject? then false
    else if Unsaid(records, k, r.id, Intended) then e == EventWithoutIntent
    else if r.FillRecord? then e == InconsistentFill
    else e == StatusWithoutFill
  }

  // ---------------------------------------------------------------- one record more

  lemma LastGoesOn(records: seq<Record>, n: nat, id: nat, what: Saying, k: int)
    requires n < |records|
    ensures Says(records[n], id, what) ==> (IsLast(records, n + 1, id, what, k) <==> k == n) && !Unsaid(records, n + 1, id, what)
    ensures !Says(records[n], id, what) ==>
              && (IsLast(records, n + 1, id, what, k) <==> IsLast(records, n, id, what, k))
              && (Unsaid(records, n + 1, id, what) <==> Unsaid(records, n, id, what))
  {
  }

  /** There is only one last record, and none if nothing is said. */
  lemma LastIsUnique(records: seq<Record>, n: nat, id: nat, what: Saying, j: int, k: int)
    requires n <= |records| && IsLast(records, n, id, what, j)
    ensures IsLast(records, n, id, what, k) ==> j == k
    ensures !Unsaid(records, n, id, what)
  {
  }

  lemma FillIsUnique(records: seq<Record>, n: nat, id: nat, q: int, a: int, q': int, a': int)
    requires n <= |records| && FilledTo(records, n, id, q, a) && FilledTo(records, n, id, q', a')
    ensures q == q' && a == a'
  {
    if !Unsaid(records, n, id, Filling) {
      var j :| IsLast(records, n, id, Filling, j) && records[j].cumQty == q && records[j].cumAmount == a;
      var k :| IsLast(records, n, id, Filling, k) && records[k].cumQty == q' && records[k].cumAmount == a';
      LastIsUnique(records, n, id, Filling, j, k);
    }
  }

  lemma FillGoesOn(records: seq<Record>, n: nat, id: nat, q: int, a: int)
    requires n < |records| && !Says(records[n], id, Filling) && FilledTo(records, n, id, q, a)
    ensures FilledTo(records, n + 1, id, q, a)
  {
    LastGoesOn(records, n, id, Filling, 0);
    if !Unsaid(records, n, id, Filling) {
      var k :| IsLast(records, n, id, Filling, k) && records[k].cumQty == q && records[k].cumAmount == a;
      LastGoesOn(records, n, id, Filling, k);
    }
  }

  lemma StatusGoesOn(records: seq<Record>, n: nat, id: nat, status: OrderStatus)
    requires n < |records| && !Says(records[n], id, Standing) && StandsAt(records, n, id, status)
    ensures StandsAt(records, n + 1, id, status)
  {
    LastGoesOn(records, n, id, Standing, 0);
    if !Unsaid(records, n, id, Standing) {
      var k :| IsLast(records, n, id, Standing, k) && StatusIn(records[k]) == status;
      LastGoesOn(records, n, id, Standing, k);
    }
  }

  lemma NumberGoesOn(records: seq<Record>, n: nat, id: nat, ref: BrokerRef)
    requires n < |records| && !Says(records[n], id, Numbering) && NumberedAs(records, n, id, ref)
    ensures NumberedAs(records, n + 1, id, ref)
  {
    LastGoesOn(records, n, id, Numbering, 0);
    if !Unsaid(records, n, id, Numbering) {
      var k :| IsLast(records, n, id, Numbering, k)
               && ref == (if records[k].SubmitResult? then records[k].outcome.ref else records[k].ref);
      LastGoesOn(records, n, id, Numbering, k);
    }
  }

  lemma JudgedGoesOn(records: seq<Record>, n: nat, id: nat, reject: Rejection)
    requires n < |records| && !Says(records[n], id, Judging) && JudgedAs(records, n, id, reject)
    ensures JudgedAs(records, n + 1, id, reject)
  {
    LastGoesOn(records, n, id, Judging, 0);
    if !Unsaid(records, n, id, Judging) {
      var k :| IsLast(records, n, id, Judging, k)
               && reject == if records[k].UnknownResolved? then ByOperator
                            else if records[k].status == Rejected then ByBroker else NotRejected;
      LastGoesOn(records, n, id, Judging, k);
    }
  }

  /** What record n itself says. */
  lemma LastSaid(records: seq<Record>, n: nat, id: nat, what: Saying)
    requires n < |records| && Says(records[n], id, what)
    ensures IsLast(records, n + 1, id, what, n)
  {
  }

  /** An order no record is about stays as told. */
  lemma ToldOn(records: seq<Record>, n: nat, id: nat, o: Order)
    requires n < |records| && Told(records, n, id, o) && forall what :: what != Intended ==> !Says(records[n], id, what)
    ensures Told(records, n + 1, id, o)
  {
    assert !Says(records[n], id, Filling) && !Says(records[n], id, Standing) && !Says(records[n], id, Numbering);
    assert !Says(records[n], id, Judging);
    FillGoesOn(records, n, id, o.filledQty, o.filledAmount);
    StatusGoesOn(records, n, id, o.status);
    NumberGoesOn(records, n, id, o.ref);
    JudgedGoesOn(records, n, id, o.reject);
  }

  /** A new order. */
  lemma ToldFirst(records: seq<Record>, n: nat, o: Order)
    requires n < |records| && records[n].IntentRecord?
    requires Unsaid(records, n, o.id, Filling) && Unsaid(records, n, o.id, Standing) && Unsaid(records, n, o.id, Numbering)
    requires Unsaid(records, n, o.id, Judging)
    requires o == Order(records[n].id, records[n].intent, PendingSubmit, records[n].ts, NO_REF, 0, 0, NotRejected)
    ensures Told(records, n + 1, o.id, o)
  {
    LastGoesOn(records, n, o.id, Filling, 0);
    LastGoesOn(records, n, o.id, Standing, 0);
    LastGoesOn(records, n, o.id, Numbering, 0);
    LastGoesOn(records, n, o.id, Judging, 0);
    assert Says(records[n], o.id, Intended);
  }

  /** The order its record is about. */
  lemma ToldByFill(records: seq<Record>, n: nat, o: Order)
    requires n < |records| && Told(records, n, o.id, o) && records[n].FillRecord? && records[n].id == o.id
    ensures Told(records, n + 1, o.id, o.(filledQty := records[n].cumQty, filledAmount := records[n].cumAmount))
  {
    LastSaid(records, n, o.id, Filling);
    StatusGoesOn(records, n, o.id, o.status);
    NumberGoesOn(records, n, o.id, o.ref);
    JudgedGoesOn(records, n, o.id, o.reject);
  }

  lemma ToldByStatus(records: seq<Record>, n: nat, o: Order)
    requires n < |records| && Told(records, n, o.id, o) && records[n].StatusRecord? && records[n].id == o.id
    ensures Told(records, n + 1, o.id, o.(status := records[n].status))
  {
    LastSaid(records, n, o.id, Standing);
    FillGoesOn(records, n, o.id, o.filledQty, o.filledAmount);
    NumberGoesOn(records, n, o.id, o.ref);
    JudgedGoesOn(records, n, o.id, o.reject);
  }

  lemma ToldByAdoption(records: seq<Record>, n: nat, o: Order)
    requires n < |records| && Told(records, n, o.id, o) && records[n].UnknownAdopted? && records[n].id == o.id
    ensures Told(records, n + 1, o.id, o.(ref := records[n].ref))
  {
    LastSaid(records, n, o.id, Numbering);
    FillGoesOn(records, n, o.id, o.filledQty, o.filledAmount);
    StatusGoesOn(records, n, o.id, o.status);
    JudgedGoesOn(records, n, o.id, o.reject);
  }

  lemma ToldByResolve(records: seq<Record>, n: nat, o: Order)
    requires n < |records| && Told(records, n, o.id, o) && records[n].UnknownResolved? && records[n].id == o.id
    ensures Told(records, n + 1, o.id, o.(status := Rejected, reject := ByOperator))
  {
    LastSaid(records, n, o.id, Standing);
    LastSaid(records, n, o.id, Judging);
    FillGoesOn(records, n, o.id, o.filledQty, o.filledAmount);
    NumberGoesOn(records, n, o.id, o.ref);
  }

  lemma ToldByAnswer(records: seq<Record>, n: nat, o: Order)
    requires n < |records| && Told(records, n, o.id, o) && records[n].SubmitResult? && records[n].id == o.id
    ensures Told(records, n + 1, o.id,
                 o.(status := records[n].status, ref := records[n].outcome.ref,
                    reject := if records[n].status.Rejected? then ByBroker else NotRejected))
  {
    LastSaid(records, n, o.id, Standing);
    LastSaid(records, n, o.id, Numbering);
    LastSaid(records, n, o.id, Judging);
    FillGoesOn(records, n, o.id, o.filledQty, o.filledAmount);
  }

  // ---------------------------------------------------------------- the whole journal

  /** The orders rebuilt from the first n records, and that nothing is said of orders that were not intended. */
  ghost predicate AllTold(records: seq<Record>, n: nat, orders: Orders)
    requires n <= |records|
  {
    && (forall id :: id in orders <==> !Unsaid(records, n, id, Intended))
    && (forall id :: id in orders ==> Told(records, n, id, orders[id]))
    && (forall id, what :: id !in orders ==> Unsaid(records, n, id, what))
    && (forall id :: IntendedOnce(records, n, id))
  }

  predicate IntendedOnce(records: seq<Record>, n: nat, id: nat)
    requires n <= |records|
  {
    forall i, j :: 0 <= i < n && 0 <= j < n && Says(records[i], id, Intended) && Says(records[j], id, Intended) ==> i == j
  }

  /** A record about one order. */
  lemma OneTold(records: seq<Record>, n: nat, orders: Orders, after: Orders, one: nat)
    requires n < |records| && AllTold(records, n, orders) && after.Keys == orders.Keys + {one}
    requires forall id :: id in orders && id != one ==> after[id] == orders[id]
    requires forall id, what :: id != one ==> !Says(records[n], id, what)
    requires (one !in orders <==> Says(records[n], one, Intended)) && Told(records, n + 1, one, after[one])
    ensures AllTold(records, n + 1, after)
  {
    var m := n + 1;
    forall id
      ensures IntendedOnce(records, m, id) && (id in after <==> !Unsaid(records, m, id, Intended))
    {
      IntentGoesOn(records, n, orders, one, id);
    }
    forall id | id in after
      ensures Told(records, m, id, after[id])
    {
      if id != one {
        ToldOn(records, n, id, orders[id]);
      }
    }
    forall id, what | id !in after
      ensures Unsaid(records, m, id, what)
    {
      SilenceGoesOn(records, n, id, what);
    }
  }

  lemma IntentGoesOn(records: seq<Record>, n: nat, orders: Orders, one: nat, id: nat)
    requires n < |records| && (forall k :: k in orders <==> !Unsaid(records, n, k, Intended)) && IntendedOnce(records, n, id)
    requires (id != one ==> !Says(records[n], id, Intended)) && (one !in orders <==> Says(records[n], one, Intended))
    ensures IntendedOnce(records, n + 1, id) && (id in orders || id == one <==> !Unsaid(records, n + 1, id, Intended))
  {
    LastGoesOn(records, n, id, Intended, 0);
  }

  lemma SilenceGoesOn(records: seq<Record>, n: nat, id: nat, what: Saying)
    requires n < |records| && Unsaid(records, n, id, what) && !Says(records[n], id, what)
    ensures Unsaid(records, n + 1, id, what)
  {
  }

  /** A record about no order. */
  lemma NoneTold(records: seq<Record>, n: nat, orders: Orders)
    requires n < |records| && AllTold(records, n, orders) && forall id, what :: !Says(records[n], id, what)
    ensures AllTold(records, n + 1, orders)
  {
    var m := n + 1;
    forall id
      ensures IntendedOnce(records, m, id) && (id in orders <==> !Unsaid(records, m, id, Intended))
    {
      NoIntentGoesOn(records, n, id);
    }
    forall id | id in orders
      ensures Told(records, m, id, orders[id])
    {
      ToldOn(records, n, id, orders[id]);
    }
    forall id, what | id !in orders
      ensures Unsaid(records, m, id, what)
    {
      SilenceGoesOn(records, n, id, what);
    }
  }

  lemma NoIntentGoesOn(records: seq<Record>, n: nat, id: nat)
    requires n < |records| && IntendedOnce(records, n, id) && !Says(records[n], id, Intended)
    ensures IntendedOnce(records, n + 1, id) && (Unsaid(records, n + 1, id, Intended) <==> Unsaid(records, n, id, Intended))
  {
  }

  /** One record: it is accepted if and only if it fits, and then the orders are told one record further. */
  lemma RecordTold(records: seq<Record>, n: nat, orders: Orders)
    requires n < |records| && AllTold(records, n, orders)
    ensures ReplayOne(orders, records[n]).Success? <==> Acceptable(records, n)
    ensures ReplayOne(orders, records[n]).Success? ==> AllTold(records, n + 1, ReplayOne(orders, records[n]).value)
    ensures ReplayOne(orders, records[n]).Failure? ==> Complains(records, n, ReplayOne(orders, records[n]).error)
  {
    FitsExactly(records, n, orders);
    if ReplayOne(orders, records[n]).Success? {
      AcceptedTold(records, n, orders);
    }
  }

  lemma AcceptedTold(records: seq<Record>, n: nat, orders: Orders)
    requires n < |records| && AllTold(records, n, orders) && ReplayOne(orders, records[n]).Success?
    ensures AllTold(records, n + 1, ReplayOne(orders, records[n]).value)
  {
    var r, after := records[n], ReplayOne(orders, records[n]).value;
    if r.SessionStart? || r.PositionMismatch? || r.RiskReject? {
      NoneTold(records, n, orders);
    } else {
      if r.IntentRecord? {
        ToldFirst(records, n, after[r.id]);
      } else {
        AboutTold(records, n, orders);
      }
      OneTold(records, n, orders, after, r.id);
    }
  }

  lemma AboutTold(records: seq<Record>, n: nat, orders: Orders)
    requires n < |records| && AllTold(records, n, orders) && ReplayOne(orders, records[n]).Success?
    requires !records[n].SessionStart? && !records[n].PositionMismatch? && !records[n].RiskReject? && !records[n].IntentRecord?
    ensures records[n].id in ReplayOne(orders, records[n]).value
    ensures Told(records, n + 1, records[n].id, ReplayOne(orders, records[n]).value[records[n].id])
  {
    var o := orders[records[n].id];
    match records[n]
    case FillRecord(_, _, _, _, _) => ToldByFill(records, n, o);
    case StatusRecord(_, _, _) => ToldByStatus(records, n, o);
    case UnknownAdopted(_, _) => ToldByAdoption(records, n, o);
    case UnknownResolved(_) => ToldByResolve(records, n, o);
    case SubmitResult(_, _, _) => ToldByAnswer(records, n, o);
    case Audit(_, id) => ToldOn(records, n, id, o);
  }

  lemma FitsExactly(records: seq<Record>, n: nat, orders: Orders)
    requires n < |records| && AllTold(records, n, orders)
    ensures ReplayOne(orders, records[n]).Success? <==> Acceptable(records, n)
    ensures ReplayOne(orders, records[n]).Failure? ==> Complains(records, n, ReplayOne(orders, records[n]).error)
  {
    var r := records[n];
    if r.FillRecord? && r.id in orders {
      FillFitsExactly(records, n, orders[r.id]);
    } else if r.StatusRecord? && r.id in orders {
      StatusFitsExactly(records, n, orders[r.id]);
    }
  }

  lemma FillFitsExactly(records: seq<Record>, n: nat, o: Order)
    requires n < |records| && records[n].FillRecord? && Told(records, n, records[n].id, o)
    requires IntendedOnce(records, n, records[n].id)
    ensures var r := records[n];
            o.filledQty < r.cumQty <= o.intent.qty && r.cumAmount >= o.filledAmount
            && r.deltaQty == r.cumQty - o.filledQty && r.deltaAmount == r.cumAmount - o.filledAmount
            <==> Acceptable(records, n)
  {
    var r := records[n];
    var i :| 0 <= i < n && Says(records[i], r.id, Intended) && o.intent == records[i].intent && o.createdAt == records[i].ts;
    if Acceptable(records, n) {
      FillIsUnique(records, n, r.id, o.filledQty, o.filledAmount, r.cumQty - r.deltaQty, r.cumAmount - r.deltaAmount);
    }
  }

  lemma StatusFitsExactly(records: seq<Record>, n: nat, o: Order)
    requires n < |records| && records[n].StatusRecord? && Told(records, n, records[n].id, o)
    ensures records[n].filledQty == o.filledQty <==> Acceptable(records, n)
  {
    var r := records[n];
    var i :| 0 <= i < n && Says(records[i], r.id, Intended) && o.intent == records[i].intent && o.createdAt == records[i].ts;
    if !Unsaid(records, n, r.id, Filling) {
      var j :| IsLast(records, n, r.id, Filling, j) && records[j].cumQty == o.filledQty && records[j].cumAmount == o.filledAmount;
      forall k
        ensures IsLast(records, n, r.id, Filling, k) ==> k == j
      {
        LastIsUnique(records, n, r.id, Filling, j, k);
      }
    }
  }

  /** The orders of the first n records. */
  lemma {:induction false} ToldTo(records: seq<Record>, n: nat)
    requires n <= |records| && forall k :: 0 <= k < n ==> Acceptable(records, k)
    ensures ReplayOrders(records[..n]).Success? && AllTold(records, n, ReplayOrders(records[..n]).value)
  {
    if n > 0 {
      ToldTo(records, n - 1);
      RecordTold(records, n - 1, ReplayOrders(records[..n - 1]).value);
      assert records[..n][..n - 1] == records[..n - 1];
    }
  }

  /** The first record that does not fit. */
  lemma {:induction false} FirstMisfit(records: seq<Record>, n: nat) returns (k: nat)
    requires n < |records| && !Acceptable(records, n)
    ensures k <= n && !Acceptable(records, k) && forall j :: 0 <= j < k ==> Acceptable(records, j)
  {
    k := n;
    if exists j: nat :: j < n && !Acceptable(records, j) {
      var j: nat :| j < n && !Acceptable(records, j);
      k := FirstMisfit(records, j);
    }
  }

  /** WHAT A JOURNAL MEANS. The restore accepts the records of a journal if and only if each fits those before it, and
      otherwise says what is wrong with the first that does not. Accepted, it rebuilds exactly the orders that were intended,
      each with the intent and time of its intent record, the fill of its last fill record, and the status, broker number and
      verdict of the last records that say so. */
  lemma JournalMeans(records: seq<Record>)
    ensures ReplayOrders(records).Success? <==> forall k :: 0 <= k < |records| ==> Acceptable(records, k)
    ensures ReplayOrders(records).Success? ==>
              var orders := ReplayOrders(records).value;
              && (forall id :: id in orders <==> exists i :: 0 <= i < |records| && Says(records[i], id, Intended))
              && (forall id :: id in orders ==> Told(records, |records|, id, orders[id]))
    ensures ReplayOrders(records).Failure? ==>
              exists k :: && 0 <= k < |records| && !Acceptable(records, k) && (forall j :: 0 <= j < k ==> Acceptable(records, j))
                          && Complains(records, k, ReplayOrders(records).error)
  {
    assert records[..|records|] == records;
    if forall k :: 0 <= k < |records| ==> Acceptable(records, k) {
      ToldTo(records, |records|);
    } else {
      var n :| 0 <= n < |records| && !Acceptable(records, n);
      var k := FirstMisfit(records, n);
      MisfitRefused(records, k);
    }
  }

  lemma MisfitRefused(records: seq<Record>, k: nat)
    requires k < |records| && !Acceptable(records, k) && forall j :: 0 <= j < k ==> Acceptable(records, j)
    ensures ReplayOrders(records).Failure? && Complains(records, k, ReplayOrders(records).error)
  {
    ToldTo(records, k);
    RecordTold(records, k, ReplayOrders(records[..k]).value);
    assert records[..k + 1][..k] == records[..k];
    FailureSticks(records, k + 1);
  }

  // ---------------------------------------------------------------- holdings and sequence numbers

  predicate NoneNegative(holdings: seq<Holding>) { forall k :: 0 <= k < |holdings| ==> holdings[k].qty >= 0 && holdings[k].cost >= 0 }

  predicate NoneTwice(holdings: seq<Holding>) { forall j, k :: 0 <= j < k < |holdings| ==> holdings[j].symbol != holdings[k].symbol }

  predicate NamedIn(holdings: seq<Holding>, symbol: string) { exists k :: 0 <= k < |holdings| && holdings[k].symbol == symbol }

  /** Each holding is the position of its symbol, and there are no others. */
  ghost predicate PositionsOf(m: map<string, Position>, holdings: seq<Holding>) {
    && (forall symbol :: symbol in m <==> NamedIn(holdings, symbol))
    && (forall k :: 0 <= k < |holdings| ==>
          holdings[k].symbol in m && m[holdings[k].symbol] == Position(holdings[k].qty, holdings[k].cost))
  }

  lemma HoldingAdded(init: seq<Holding>, h: Holding, m: map<string, Position>)
    requires PositionsOf(m, init) && NoneTwice(init) && NoneNegative(init)
    ensures NoneTwice(init + [h]) <==> h.symbol !in m
    ensures NoneNegative(init + [h]) <==> h.qty >= 0 && h.cost >= 0
    ensures h.symbol !in m ==> PositionsOf(m[h.symbol := Position(h.qty, h.cost)], init + [h])
  {
    var more := init + [h];
    assert more[|init|] == h && forall k :: 0 <= k < |init| ==> more[k] == init[k];
    assert h.symbol in m <==> NamedIn(init, h.symbol);
    if h.symbol in m {
      var k :| 0 <= k < |init| && init[k].symbol == h.symbol;
      assert more[k].symbol == more[|init|].symbol;
    } else {
      forall symbol
        ensures NamedIn(more, symbol) <==> NamedIn(init, symbol) || symbol == h.symbol
      {
        NamedNext(init, h, symbol);
      }
    }
  }

  lemma NamedNext(init: seq<Holding>, h: Holding, symbol: string)
    ensures NamedIn(init + [h], symbol) <==> NamedIn(init, symbol) || symbol == h.symbol
  {
    var more := init + [h];
    assert more[|init|] == h;
    if NamedIn(init, symbol) {
      var k :| 0 <= k < |init| && init[k].symbol == symbol;
      assert more[k].symbol == symbol;
    }
  }

  lemma BadPrefix(init: seq<Holding>, h: Holding)
    ensures NoneTwice(init + [h]) && NoneNegative(init + [h]) ==> NoneTwice(init) && NoneNegative(init)
  {
    assert forall k :: 0 <= k < |init| ==> (init + [h])[k] == init[k];
  }

  /** Holdings can be taken over if and only if none is negative and no symbol is named twice; each is then the position of
      its symbol, and there are no others. */
  lemma {:induction false} HoldingsMean(holdings: seq<Holding>)
    ensures HoldingPositions(holdings).Success? <==> NoneNegative(holdings) && NoneTwice(holdings)
    ensures HoldingPositions(holdings).Success? ==> PositionsOf(HoldingPositions(holdings).value, holdings)
    ensures HoldingPositions(holdings).Failure? ==> HoldingPositions(holdings).error == BadHoldings
  {
    if holdings != [] {
      var init, h := holdings[..|holdings| - 1], holdings[|holdings| - 1];
      HoldingsMean(init);
      assert holdings == init + [h];
      BadPrefix(init, h);
      if HoldingPositions(init).Success? {
        HoldingAdded(init, h, HoldingPositions(init).value);
      }
    }
  }

  /** The holdings of the day are those of the first session start. */
  lemma {:induction false} FirstStartMeans(records: seq<Record>)
    ensures FirstStart(records).None? <==> forall k :: 0 <= k < |records| ==> !records[k].SessionStart?
    ensures forall k :: 0 <= k < |records| && records[k].SessionStart? && (forall j :: 0 <= j < k ==> !records[j].SessionStart?) ==>
              FirstStart(records) == Some(records[k].holdings)
  {
    if records != [] {
      var init, last := records[..|records| - 1], |records| - 1;
      FirstStartMeans(init);
      assert forall k :: 0 <= k < last ==> init[k] == records[k];
    }
  }

  /** The sequence number goes on from the highest id that was recorded. */
  lemma {:induction false} NextSeqMeans(records: seq<Record>)
    ensures forall k :: 0 <= k < |records| && (records[k].IntentRecord? || records[k].RiskReject?) ==> records[k].id <= NextSeq(records)
    ensures NextSeq(records) == 0
            || exists k :: 0 <= k < |records| && (records[k].IntentRecord? || records[k].RiskReject?) && records[k].id == NextSeq(records)
  {
    if records != [] {
      var init, last := records[..|records| - 1], |records| - 1;
      NextSeqMeans(init);
      assert forall k :: 0 <= k < last ==> init[k] == records[k];
      if NextSeq(records) == NextSeq(init) && NextSeq(init) != 0 {
        var k :| 0 <= k < |init| && (init[k].IntentRecord? || init[k].RiskReject?) && init[k].id == NextSeq(init);
        assert records[k].id == NextSeq(records);
      }
    }
  }
}
