/** A day without a crash on which an order in doubt changes its number with every reconcile: the row of an earlier order
    is over-filled, so that every reconcile raises before the order in doubt has its turn. */
module Alternating {
  import opened Contracts
  import opened Accounting
  import opened Recovery
  import opened Sessions
  import opened Invariants
  import opened Reconciling
  import opened Adoption
  import opened ExactlyOnce
  import opened Repeating
  import opened Operations
  import opened Witnesses

  const NINE := BrokerRef(Some("9"), Some("o"), Some(0))

  /** Row "9" shows eleven shares of an order for ten. */
  const OVERFILLED := RowNo("9", 11)

  const ONE_MATCH := [OVERFILLED, RowNo("1", 0)]

  const TWO_MATCHES := [OVERFILLED, RowNo("1", 0), RowNo("2", 0)]

  /** The first order, accepted under "9"; the second in doubt, holding the given number. */
  function Pair(ref: BrokerRef): Orders {
    map[1 := Doubtful(1, NINE, 0).(status := OrderStatus.Accepted), 2 := Doubtful(2, ref, 0)]
  }

  predicate Holds(s: Session, ref: BrokerRef) { s.orders == Pair(ref) && s.seqNo == 2 }

  function NumberOf(no: string): BrokerRef { RefOf(RowNo(no, 0)) }

  lemma ListFacts(rows: seq<Row>)
    requires rows == ONE_MATCH || rows == TWO_MATCHES
    ensures GoodSnapshot(rows) && RowOf(rows, "9") == Some(OVERFILLED)
  {
    if rows == TWO_MATCHES {
      assert rows[..2] == ONE_MATCH;
    }
    assert ONE_MATCH[..1] == [OVERFILLED];
  }

  lemma PairKnown(ref: BrokerRef)
    requires ref == NO_REF || ref == NumberOf("1") || ref == NumberOf("2")
    ensures Known(Pair(ref)) == if ref == NO_REF then {"9"} else {"9", ref.no.value}
    ensures OneUnsurePerKey(Pair(ref)) && NoPending(Pair(ref))
  {
    var orders := Pair(ref);
    assert orders[1].Numbered() && orders[1].ref.no.value == "9";
    if ref != NO_REF {
      assert orders[2].Numbered() && orders[2].ref.no.value in Known(orders);
    }
  }

  /** The first loop gives the second order the only unclaimed row. */
  lemma TakesOther(costs: CostModel, s: Session, ref: BrokerRef, rows: seq<Row>, k: nat)
    requires Holds(s, ref) && (ref == NO_REF || ref == NumberOf("1") || ref == NumberOf("2"))
    requires rows == ONE_MATCH || rows == TWO_MATCHES
    requires 1 <= k < |rows| && rows[k].no !in Known(s.orders)
    requires forall i :: 1 <= i < |rows| && i != k ==> rows[i].no in Known(s.orders)
    ensures Midway(costs, s, rows).orders == Pair(RefOf(rows[k])) && Midway(costs, s, rows).seqNo == 2
    ensures Midway(costs, s, rows).ledger == s.ledger
  {
    ListFacts(rows);
    PairKnown(ref);
    LoopDecidesAtOnce(costs, s, rows, 2);
    AdoptsOther(ref, rows, k);
  }

  lemma AdoptsOther(ref: BrokerRef, rows: seq<Row>, k: nat)
    requires (rows == ONE_MATCH || rows == TWO_MATCHES) && "9" in Known(Pair(ref))
    requires 1 <= k < |rows| && rows[k].no !in Known(Pair(ref))
    requires forall i :: 1 <= i < |rows| && i != k ==> rows[i].no in Known(Pair(ref))
    ensures Adopted(Pair(ref), rows, 2) == Pair(RefOf(rows[k]))
  {
    OnlyOther(ref, rows, Known(Pair(ref)), k);
  }

  lemma OnlyOther(ref: BrokerRef, rows: seq<Row>, known: set<string>, k: nat)
    requires rows == ONE_MATCH || rows == TWO_MATCHES
    requires "9" in known && 1 <= k < |rows| && rows[k].no !in known
    requires forall i :: 1 <= i < |rows| && i != k ==> rows[i].no in known
    ensures Candidates(Pair(ref)[2], rows, known) == [rows[k]]
  {
    OnlyCandidate(Pair(ref)[2], rows, known, k);
  }

  /** The second loop raises at the first order. */
  lemma RaisesFirst(costs: CostModel, mid: Session, ref: BrokerRef, rows: seq<Row>)
    requires Holds(mid, ref) && (rows == ONE_MATCH || rows == TWO_MATCHES)
    ensures var (t, err) := SyncTo(costs, mid, rows, 2); err == Some(FillOutOfRange) && SameCore(t, mid)
  {
    ListFacts(rows);
    assert SyncTo(costs, mid, rows, 0) == (mid, None);
    assert SyncOne(costs, mid, rows, 1) == (Next(costs, mid, Note(IntegrityViolation, 1)), Some(FillOutOfRange));
    assert SyncTo(costs, mid, rows, 1) == SyncOne(costs, mid, rows, 1);
  }

  /** With both rows in the list, a reconcile moves the order to the number it does not hold, and raises. */
  lemma Flips(costs: CostModel, s: Session, no: string)
    requires (no == "1" || no == "2") && Holds(s, NumberOf(no))
    ensures var (t, err) := Reconcile(costs, s, TWO_MATCHES);
            err == Some(FillOutOfRange) && Holds(t, NumberOf(if no == "1" then "2" else "1"))
  {
    PairKnown(NumberOf(no));
    TakesOther(costs, s, NumberOf(no), TWO_MATCHES, if no == "1" then 2 else 1);
    RaisesFirst(costs, Midway(costs, s, TWO_MATCHES), NumberOf(if no == "1" then "2" else "1"), TWO_MATCHES);
  }

  function Again(costs: CostModel, s: Session, rows: seq<Row>, n: nat): Session {
    if n == 0 then s else Reconcile(costs, Again(costs, s, rows, n - 1), rows).0
  }

  lemma {:induction false} FlipsForever(costs: CostModel, s: Session, n: nat)
    requires Holds(s, NumberOf("1"))
    ensures Holds(Again(costs, s, TWO_MATCHES, n), NumberOf(if n % 2 == 0 then "1" else "2"))
  {
    if n > 0 {
      FlipsForever(costs, s, n - 1);
      Flips(costs, Again(costs, s, TWO_MATCHES, n - 1), if (n - 1) % 2 == 0 then "1" else "2");
    }
  }

  // ---------------------------------------------------------------- the day

  function Submitted(costs: CostModel, s: Session, outcome: Outcome): Session {
    Next(costs, Next(costs, s, Place(TEN, 0, 0, 0)), Answer(s.seqNo + 1, outcome))
  }

  lemma SubmitOperates(costs: CostModel, first: Session, ops: seq<Operation>, s: Session, outcome: Outcome) returns (more: seq<Operation>)
    requires Working(costs, first, ops) && OperateAll(costs, first, ops) == s && NoPending(s.orders)
    requires forall id :: id in s.orders ==> id <= s.seqNo && !s.orders[id].status.Unknown?
    requires PlainOutcome(outcome) && FreshRef(s.orders, outcome.ref)
    ensures Working(costs, first, more) && OperateAll(costs, first, more) == Submitted(costs, s, outcome)
    ensures forall i :: 0 <= i < |more| ==> (i < |ops| && more[i] == ops[i]) || more[i].Do?
  {
    var place, answer := Do(Place(TEN, 0, 0, 0)), Do(Answer(s.seqNo + 1, outcome));
    SubmitAllowed(costs, s, outcome);
    OperateOn(costs, first, ops, place);
    OperateOn(costs, first, ops + [place], answer);
    more := ops + [place] + [answer];
  }

  lemma SubmitAllowed(costs: CostModel, s: Session, outcome: Outcome)
    requires NoPending(s.orders) && forall id :: id in s.orders ==> id <= s.seqNo && !s.orders[id].status.Unknown?
    requires PlainOutcome(outcome) && FreshRef(s.orders, outcome.ref)
    ensures MayOperate(costs, s, Do(Place(TEN, 0, 0, 0)))
    ensures MayOperate(costs, Next(costs, s, Place(TEN, 0, 0, 0)), Do(Answer(s.seqNo + 1, outcome)))
  {
    assert FreshRef(Next(costs, s, Place(TEN, 0, 0, 0)).orders, outcome.ref);
  }

  lemma TwoSubmits(costs: CostModel, first: Session) returns (ops: seq<Operation>, s: Session)
    requires SoundCosts(costs) && FirstSession(first, [])
    ensures Working(costs, first, ops) && OperateAll(costs, first, ops) == s && Holds(s, NO_REF)
    ensures forall i :: 0 <= i < |ops| ==> ops[i].Do?
  {
    assert Working(costs, first, []) && OperateAll(costs, first, []) == first;
    var accepted := Outcome(OutcomeAccepted, NINE);
    ops := SubmitOperates(costs, first, [], first, accepted);
    var one := Submitted(costs, first, accepted);
    assert one.orders == map[1 := Doubtful(1, NINE, 0).(status := OrderStatus.Accepted)] && one.seqNo == 1;
    ops := SubmitOperates(costs, first, ops, one, UNANSWERED);
    s := Submitted(costs, one, UNANSWERED);
    assert s.orders == Pair(NO_REF);
  }

  /** A send nobody answered, next to an order whose row is over-filled, adopted by a reconcile that raises. */
  lemma AdoptedAndRaised(costs: CostModel, first: Session) returns (ops: seq<Operation>, s: Session)
    requires SoundCosts(costs) && FirstSession(first, [])
    ensures Working(costs, first, ops) && OperateAll(costs, first, ops) == s && Holds(s, NumberOf("1"))
    ensures forall i :: 0 <= i < |ops| ==> ops[i].Do? || ops[i].DoReconcile?
  {
    var before, sent := TwoSubmits(costs, first);
    ListFacts(ONE_MATCH);
    PairKnown(NO_REF);
    OperateOn(costs, first, before, DoReconcile(ONE_MATCH));
    ops := before + [DoReconcile(ONE_MATCH)];
    s := Reconcile(costs, sent, ONE_MATCH).0;
    TakesOther(costs, sent, NO_REF, ONE_MATCH, 1);
    RaisesFirst(costs, Midway(costs, sent, ONE_MATCH), NumberOf("1"), ONE_MATCH);
  }

  /** EVERY RECONCILE CHANGES THE NUMBER. A day without a crash after which each further reconcile of one and the same
      list raises and moves the order in doubt to the number it does not hold. */
  lemma NeverSettles(costs: CostModel, first: Session, n: nat) returns (ops: seq<Operation>, s: Session)
    requires SoundCosts(costs) && FirstSession(first, [])
    ensures Working(costs, first, ops) && OperateAll(costs, first, ops) == s
    ensures forall i :: 0 <= i < |ops| ==> ops[i].Do? || ops[i].DoReconcile?
    ensures Ready(costs, first.ledger, s, TWO_MATCHES)
    ensures var t := Again(costs, s, TWO_MATCHES, n);
            && 2 in t.orders && t.orders[2].ref.no == Some(if n % 2 == 0 then "1" else "2")
            && Reconcile(costs, t, TWO_MATCHES).1 == Some(FillOutOfRange)
            && !SameCore(Reconcile(costs, t, TWO_MATCHES).0, t)
  {
    ops, s := AdoptedAndRaised(costs, first);
    ListFacts(TWO_MATCHES);
    assert Lawful(first.ledger, s) by { WorkingKept(costs, first, ops); }
    FlipsForever(costs, s, n);
    Flips(costs, Again(costs, s, TWO_MATCHES, n), if n % 2 == 0 then "1" else "2");
  }
}
