/** Where crash replay depends on the broker, and exactly how: two things the live code does not
    record, each with the precise condition under which the journal still mirrors memory. */
module Assumptions {
  import opened Contracts
  import opened Accounting
  import opened Recovery
  import opened Sessions
  import opened Replay
  import opened Invariants
  import opened Reconciling

  // ---------------------------------------------------------------- restated amounts

  /** A row whose amount changed while its quantity stood still is taken over without a fill record. */
  lemma RestatedAmountUnrecorded(costs: CostModel, start: Balance, s: Session, rows: seq<Row>, id: nat)
    requires Inv(costs, start, s) && NoPending(s.orders) && id in s.orders && !AmountStands(s.orders[id], rows)
    requires SyncOne(costs, s, rows, id).1.None?
    ensures var t := SyncOne(costs, s, rows, id).0;
            && id in t.orders && t.orders[id].filledAmount != s.orders[id].filledAmount
            && (t.journal == s.journal || exists st :: t.journal == s.journal + [StatusRecord(id, st, s.orders[id].filledQty)])
  {
    var o, row := s.orders[id], RowFor(s.orders[id], rows).value;
    var t := SyncOne(costs, s, rows, id).0;
    if t.journal != s.journal {
      assert t.journal == s.journal + [StatusRecord(id, t.orders[id].status, o.filledQty)];
    }
  }

  lemma AmountMustMatch(costs: CostModel, start: Balance, s: Session, t: Session, id: nat)
    requires Rebuilds(costs, start, s) && id in Visible(s.orders) && id in t.orders
    requires t.journal == s.journal || exists st :: t.journal == s.journal + [StatusRecord(id, st, s.orders[id].filledQty)]
    requires t.orders[id].filledAmount != s.orders[id].filledAmount && !t.orders[id].reject.ByGate?
    ensures !Rebuilds(costs, start, t)
  {
    assert id in Visible(t.orders);
    if t.journal != s.journal {
      var st :| t.journal == s.journal + [StatusRecord(id, st, s.orders[id].filledQty)];
      Appended(costs, start, s.journal, StatusRecord(id, st, s.orders[id].filledQty), map[]);
    }
  }

  /** EXACT CONDITION. One order's turn in a reconcile keeps the journal a mirror of memory if and only
      if the row of the number it holds, which it may just have been given, does not show another
      amount for the quantity it has. */
  lemma MirrorKeptExactly(costs: CostModel, start: Balance, s: Session, rows: seq<Row>, id: nat)
    requires SoundCosts(costs) && Inv(costs, start, s) && NoPending(s.orders) && NamedRows(rows)
    requires id in s.orders && SyncOne(costs, s, rows, id).1.None?
    ensures Rebuilds(costs, start, SyncOne(costs, s, rows, id).0) <==> AmountStands(s.orders[id], rows)
  {
    if AmountStands(s.orders[id], rows) {
      SyncOneInv(costs, start, s, rows, id);
    } else {
      RestatedAmountUnrecorded(costs, start, s, rows, id);
      AmountMustMatch(costs, start, s, SyncOne(costs, s, rows, id).0, id);
    }
  }

  /** Once an amount was taken over unrecorded, the next fill of that order makes the journal
      unreadable: the restore refuses it. */
  lemma RestatedAmountRefused(costs: CostModel, start: Balance, s: Session, id: nat, amount: int, q: int, a: int)
    requires Rebuilds(costs, start, s) && id in Visible(s.orders) && amount != s.orders[id].filledAmount
    requires q > s.orders[id].filledQty
    requires var t := Put(s, id, s.orders[id].(filledAmount := amount));
             Next(costs, t, Book(id, q, a)).journal != s.journal
    ensures var t := Put(s, id, s.orders[id].(filledAmount := amount));
            Restore(Next(costs, t, Book(id, q, a)).journal, false, costs) == Failure(InconsistentFill)
  {
    var o := s.orders[id];
    Appended(costs, start, s.journal, FillRecord(id, q - o.filledQty, a - amount, q, a), map[]);
  }

  // ---------------------------------------------------------------- identifiers of refused sends

  /** EXACT CONDITION. The answer to a send keeps the mirror if and only if an answer other than an
      acceptance carries no identifiers: the restore copies them from every answer, live code only
      from an acceptance. */
  lemma AnswerMirrorsExactly(costs: CostModel, start: Balance, s: Session, id: nat, outcome: Outcome)
    requires Shape(s) && Rebuilds(costs, start, s) && id in s.orders && s.orders[id].status.PendingSubmit?
    ensures Rebuilds(costs, start, Next(costs, s, Answer(id, outcome))) <==> PlainOutcome(outcome)
  {
    var r := SubmitResult(id, outcome, AnswerStatus(outcome.kind));
    var o := Answered(s.orders[id], outcome);
    assert id in Visible(s.orders);
    if PlainOutcome(outcome) {
      RewriteKeeps(costs, start, s, id, o, r);
    } else {
      Appended(costs, start, s.journal, r, map[]);
      assert !Mirror(ReplayOne(ReplayOrders(s.journal).value, r).value[id], o);
      assert id in Visible(s.orders[id := o]);
    }
  }
}
