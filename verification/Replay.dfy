/** The journal determines the session: replaying the records appended so far rebuilds the orders
    and the ledger that memory holds, whatever the crash point. */
module Replay {
  import opened Contracts
  import opened Accounting
  import opened Recovery
  import opened Sessions

  // ---------------------------------------------------------------- one more record

  /** How every pass of the restore reacts to one more record. */
  lemma Appended(costs: CostModel, start: Balance, journal: seq<Record>, r: Record, orders: Orders)
    ensures var j := journal + [r];
            && NextSeq(j) == (if r.IntentRecord? || r.RiskReject? then Max(NextSeq(journal), r.id) else NextSeq(journal))
            && SubmitTimes(j) == (if r.IntentRecord? then SubmitTimes(journal) + [r.ts] else SubmitTimes(journal))
            && (FirstStart(journal).Some? ==> FirstStart(j) == FirstStart(journal))
            && (ReplayOrders(journal).Success? ==> ReplayOrders(j) == ReplayOne(ReplayOrders(journal).value, r))
            && (ReplayFills(costs, start, journal, orders).Success? ==>
                  ReplayFills(costs, start, j, orders)
                  == ReplayFill(costs, ReplayFills(costs, start, journal, orders).value, r, orders))
  {
    assert (journal + [r])[..|journal + [r]| - 1] == journal;
  }

  /** The ledger replay looks only at intents, so orders that agree on them replay alike. */
  lemma {:induction false} FillsReadIntents(costs: CostModel, start: Balance, records: seq<Record>, a: Orders, b: Orders)
    requires ReplayOrders(records).Success?
    requires forall id :: id in ReplayOrders(records).value ==> id in a && id in b && a[id].intent == b[id].intent
    ensures ReplayFills(costs, start, records, a) == ReplayFills(costs, start, records, b)
  {
    if records != [] {
      var init := records[..|records| - 1];
      ReplayGrows(records);
      FillsReadIntents(costs, start, init, a, b);
    }
  }

  lemma ReplayOneGrows(orders: Orders, r: Record)
    requires ReplayOne(orders, r).Success?
    ensures var after := ReplayOne(orders, r).value;
            && (forall id :: id in orders ==> id in after && after[id].intent == orders[id].intent)
            && (r.FillRecord? ==> r.id in orders)
            && (forall id :: id in after && id !in orders ==> r.IntentRecord? && id == r.id)
  {
  }

  /** Records never remove an order and never change an intent. */
  lemma {:induction false} ReplayGrows(records: seq<Record>)
    requires records != [] && ReplayOrders(records).Success?
    ensures var before := ReplayOrders(records[..|records| - 1]);
            var last := records[|records| - 1];
            && before.Success?
            && ReplayOne(before.value, last) == ReplayOrders(records)
            && (forall id :: id in before.value ==>
                  id in ReplayOrders(records).value && ReplayOrders(records).value[id].intent == before.value[id].intent)
            && (last.FillRecord? ==> last.id in before.value)
            && (forall id :: id in ReplayOrders(records).value && id !in before.value ==>
                  last.IntentRecord? && id == last.id)
  {
    ReplayOneGrows(ReplayOrders(records[..|records| - 1]).value, records[|records| - 1]);
  }

  /** No order is rebuilt under an id above the restored sequence number. */
  lemma {:induction false} ReplayedIdsBounded(records: seq<Record>)
    requires ReplayOrders(records).Success?
    ensures forall id :: id in ReplayOrders(records).value ==> id <= NextSeq(records)
  {
    if records != [] {
      ReplayGrows(records);
      ReplayedIdsBounded(records[..|records| - 1]);
    }
  }

  /** Every recorded client id is at most the restored sequence number. */
  lemma {:induction false} RecordedIdsBounded(records: seq<Record>, k: nat)
    requires k < |records| && (records[k].IntentRecord? || records[k].RiskReject?)
    ensures records[k].id <= NextSeq(records)
  {
    if k < |records| - 1 {
      RecordedIdsBounded(records[..|records| - 1], k);
    }
  }

  // ---------------------------------------------------------------- the simulation relation

  /** A replayed order and the live one; the replay may still show a send whose answer was lost. */
  predicate Mirror(r: Order, o: Order) {
    && r == o.(createdAt := r.createdAt, status := r.status)
    && (r.status == o.status || (r.status.PendingSubmit? && o.status.Unknown?))
  }

  predicate Mirrors(replayed: Orders, orders: Orders) {
    && replayed.Keys == Visible(orders).Keys
    && forall id :: id in replayed ==> Mirror(replayed[id], orders[id])
  }

  /** The balance the day's first session_start recorded. */
  predicate StartsWith(journal: seq<Record>, start: Balance) {
    && FirstStart(journal).Some?
    && HoldingPositions(FirstStart(journal).value) == Success(start.positions)
    && start.cash == 0 && start.realized == 0
  }

  predicate Rebuilds(costs: CostModel, start: Balance, s: Session) {
    && StartsWith(s.journal, start)
    && ReplayOrders(s.journal).Success?
    && Mirrors(ReplayOrders(s.journal).value, s.orders)
    && ReplayFills(costs, start, s.journal, ReplayOrders(s.journal).value) == Success(s.ledger)
    && NextSeq(s.journal) <= s.seqNo
    && |SubmitTimes(s.journal)| == |s.submitTimes|
  }

  /** A restored order: the live one, with an unanswered send turned into UNKNOWN and the creation
      time read back from the journal's timestamp. */
  predicate RestoredAs(r: Order, o: Order) {
    r == o.(createdAt := r.createdAt, status := SettleStatus(o.status))
  }

  /** The restarted session against the one that crashed. */
  ghost predicate Continues(r: Session, s: Session) {
    && r.orders.Keys == Visible(s.orders).Keys
    && (forall id :: id in r.orders ==> RestoredAs(r.orders[id], s.orders[id]))
    && r.ledger == s.ledger
    && r.journal == s.journal
    && r.seqNo == NextSeq(s.journal) <= s.seqNo
    && (forall id :: id in r.orders ==> id <= r.seqNo)
    && |r.submitTimes| == |s.submitTimes|
  }

  /** If the journal mirrors memory, restore_session succeeds and rebuilds memory. */
  lemma RestoreContinues(costs: CostModel, start: Balance, s: Session)
    requires Rebuilds(costs, start, s)
    ensures Resume(costs, s.journal).Some?
    ensures Continues(Resume(costs, s.journal).value, s)
    ensures Rebuilds(costs, start, Resume(costs, s.journal).value)
  {
    var raw := ReplayOrders(s.journal).value;
    FillsReadIntents(costs, start, s.journal, raw, Settle(raw));
    ReplayedIdsBounded(s.journal);
  }

  // ---------------------------------------------------------------- every action keeps the mirror

  /** One record and the memory change that goes with it: the mirror is kept if the record alone
      replays to the change. */
  lemma RecordKeeps(costs: CostModel, start: Balance, s: Session, s': Session, r: Record)
    requires Rebuilds(costs, start, s)
    requires s'.journal == s.journal + [r]
    requires var raw := ReplayOrders(s.journal).value;
             && ReplayOne(raw, r).Success?
             && Mirrors(ReplayOne(raw, r).value, s'.orders)
             && ReplayFill(costs, s.ledger, r, ReplayOne(raw, r).value) == Success(s'.ledger)
    requires s.seqNo <= s'.seqNo
    requires r.IntentRecord? || r.RiskReject? ==> r.id <= s'.seqNo
    requires |s'.submitTimes| == |s.submitTimes| + (if r.IntentRecord? then 1 else 0)
    ensures Rebuilds(costs, start, s')
  {
    var raw := ReplayOrders(s.journal).value;
    var raw' := ReplayOne(raw, r).value;
    ReplayOneGrows(raw, r);
    FillsReadIntents(costs, start, s.journal, raw, raw');
    Appended(costs, start, s.journal, r, raw');
  }

  /** An action that rewrites one order keeps the mirror if its record replays to the rewritten order. */
  lemma RewriteKeeps(costs: CostModel, start: Balance, s: Session, id: nat, o: Order, r: Record)
    requires Rebuilds(costs, start, s)
    requires id in Visible(s.orders) && !o.reject.ByGate?
    requires !r.IntentRecord? && !r.RiskReject? && !r.FillRecord?
    requires var raw := ReplayOrders(s.journal).value;
             && ReplayOne(raw, r).Success?
             && ReplayOne(raw, r).value.Keys == raw.Keys
             && Mirror(ReplayOne(raw, r).value[id], o)
             && forall k :: k in raw && k != id ==> ReplayOne(raw, r).value[k] == raw[k]
    ensures Rebuilds(costs, start, Log(Put(s, id, o), r))
  {
    RecordKeeps(costs, start, s, Log(Put(s, id, o), r), r);
  }

  lemma PlainRecordKeeps(costs: CostModel, start: Balance, s: Session, r: Record)
    requires Rebuilds(costs, start, s)
    requires r.SessionStart? || r.PositionMismatch? || (r.Audit? && r.id in Visible(s.orders))
    ensures Rebuilds(costs, start, Log(s, r))
  {
    RecordKeeps(costs, start, s, Log(s, r), r);
  }

  lemma PlaceKeeps(costs: CostModel, start: Balance, s: Session, intent: Intent, createdAt: int, ts: int, sentAt: int)
    requires Rebuilds(costs, start, s) && s.seqNo + 1 !in s.orders
    ensures Rebuilds(costs, start, Next(costs, s, Place(intent, createdAt, ts, sentAt)))
  {
    RecordKeeps(costs, start, s, Next(costs, s, Place(intent, createdAt, ts, sentAt)),
                IntentRecord(ts, s.seqNo + 1, intent));
  }

  lemma GateRejectKeeps(costs: CostModel, start: Balance, s: Session, intent: Intent, createdAt: int, code: RejectCode)
    requires Rebuilds(costs, start, s) && s.seqNo + 1 !in s.orders
    ensures Rebuilds(costs, start, Next(costs, s, GateReject(intent, createdAt, code)))
  {
    assert Visible(Next(costs, s, GateReject(intent, createdAt, code)).orders) == Visible(s.orders);
    RecordKeeps(costs, start, s, Next(costs, s, GateReject(intent, createdAt, code)), RiskReject(s.seqNo + 1, code));
  }

  /** The fill record carries the same differences the ledger was given. */
  lemma BookMirrors(raw: Orders, orders: Orders, id: nat, qty: int, amount: int)
    requires Mirrors(raw, orders) && id in Visible(orders)
    requires orders[id].filledQty < qty <= orders[id].intent.qty && orders[id].filledAmount <= amount
    ensures var o := orders[id];
            var r := FillRecord(id, qty - o.filledQty, amount - o.filledAmount, qty, amount);
            && ReplayOne(raw, r).Success?
            && ReplayOne(raw, r).value[id].intent == o.intent
            && Mirrors(ReplayOne(raw, r).value, orders[id := o.(filledQty := qty, filledAmount := amount)])
  {
    assert Mirror(raw[id], orders[id]);
  }

  lemma BookKeeps(costs: CostModel, start: Balance, s: Session, id: nat, qty: int, amount: int)
    requires Rebuilds(costs, start, s) && id in Visible(s.orders)
    requires s.orders[id].filledQty < qty <= s.orders[id].intent.qty && s.orders[id].filledAmount <= amount
    ensures Rebuilds(costs, start, Next(costs, s, Book(id, qty, amount)))
  {
    var o := s.orders[id];
    var r := FillRecord(id, qty - o.filledQty, amount - o.filledAmount, qty, amount);
    if ApplyFill(costs, s.ledger, o.intent.symbol, o.intent.side, r.deltaQty, r.deltaAmount).Success? {
      BookMirrors(ReplayOrders(s.journal).value, s.orders, id, qty, amount);
      RecordKeeps(costs, start, s, Next(costs, s, Book(id, qty, amount)), r);
    }
  }
}
