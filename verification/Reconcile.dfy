/** Reconciling local orders with the broker's cumulative order list (src/execution/oms.py). */
module Reconciling {
  import opened Contracts
  import opened Accounting
  import opened Recovery
  import opened Sessions
  import opened Invariants

  const UNKNOWN_MATCH_SKEW := 5

  /** Rows by broker number; of several rows with one number the last is kept. */
  function RowOf(rows: seq<Row>, no: string): Option<Row> {
    if rows == [] then None
    else if rows[|rows| - 1].no == no then Some(rows[|rows| - 1])
    else RowOf(rows[..|rows| - 1], no)
  }

  /** Some other row names this number as the order it amends. */
  predicate HasCancelChild(rows: seq<Row>, no: string) {
    no != "" && exists k :: 0 <= k < |rows| && rows[k].original == no && rows[k].no != no
  }

  function ExpectedPrice(i: Intent): Option<int> {
    if i.orderType.Limit? then i.limitPrice else Some(0)
  }

  predicate Matches(o: Order, row: Row) {
    && (row.original == "" || row.original == row.no)
    && row.symbol == o.intent.symbol
    && row.side == o.intent.side
    && row.orderedQty == o.intent.qty
    && Some(row.price) == ExpectedPrice(o.intent)
    && row.orderTime >= o.createdAt - UNKNOWN_MATCH_SKEW
  }

  /** The unclaimed rows an order in doubt could be. */
  function Candidates(o: Order, rows: seq<Row>, known: set<string>): seq<Row> {
    if rows == [] then []
    else
      var row := rows[|rows| - 1];
      Candidates(o, rows[..|rows| - 1], known)
      + (if row.no !in known && Matches(o, row) then [row] else [])
  }

  function RefOf(row: Row): BrokerRef { BrokerRef(Some(row.no), Some(row.org), Some(row.orderTime)) }

  // ---------------------------------------------------------------- first loop: adoption

  function AdoptOne(costs: CostModel, s: Session, known: set<string>, rows: seq<Row>, id: nat): (Session, set<string>) {
    if id !in s.orders || !s.orders[id].status.Unknown? then (s, known)
    else
      var found := Candidates(s.orders[id], rows, known);
      if |found| == 1 then (Next(costs, s, Adopt(id, RefOf(found[0]))), known + {found[0].no})
      else if |found| > 1 then (Next(costs, s, Note(UnknownAmbiguous, id)), known)
      else (s, known)
  }

  function AdoptTo(costs: CostModel, s: Session, rows: seq<Row>, n: nat): (Session, set<string>) {
    if n == 0 then (s, Known(s.orders))
    else
      var (before, known) := AdoptTo(costs, s, rows, n - 1);
      AdoptOne(costs, before, known, rows, n)
  }

  // ---------------------------------------------------------------- second loop: fills and statuses

  /** The rows' answer for one order, or None when the loop passes it by. */
  function RowFor(o: Order, rows: seq<Row>): Option<Row> {
    if o.Terminal() || o.ref.no.None? then None else RowOf(rows, o.ref.no.value)
  }

  /** The order once the row's cumulative fill has been taken over. */
  function FillPart(costs: CostModel, s: Session, id: nat, row: Row): Session
    requires id in s.orders
  {
    if row.filledQty > s.orders[id].filledQty then Next(costs, s, Book(id, row.filledQty, row.filledAmount))
    else Put(s, id, s.orders[id].(filledAmount := row.filledAmount))
  }

  function SyncRow(costs: CostModel, s: Session, rows: seq<Row>, id: nat, row: Row): (Session, Option<ExecError>)
    requires id in s.orders && s.orders[id].ref.no.Some?
  {
    var o := s.orders[id];
    var delta := row.filledQty - o.filledQty;
    if delta < 0 || row.filledQty > o.intent.qty then
      (Next(costs, s, Note(IntegrityViolation, id)), Some(FillOutOfRange))
    else
      match DeriveStatus(row, HasCancelChild(rows, o.ref.no.value))
      case Failure(e) => (s, Some(e))
      case Success(next) =>
        var refused := ApplyFill(costs, s.ledger, o.intent.symbol, o.intent.side, delta, row.filledAmount - o.filledAmount);
        if delta > 0 && refused.Failure? then (s, Some(refused.error))
        else
          var filled := FillPart(costs, s, id, row);
          match Transition(o.status, next)
          case Failure(e) => (filled, Some(e))
          case Success(status) =>
            if status != o.status || delta > 0 then (Next(costs, filled, Move(id, status)), None)
            else (filled, None)
  }

  function SyncOne(costs: CostModel, s: Session, rows: seq<Row>, id: nat): (Session, Option<ExecError>) {
    if id !in s.orders || RowFor(s.orders[id], rows).None? then (s, None)
    else SyncRow(costs, s, rows, id, RowFor(s.orders[id], rows).value)
  }

  function SyncTo(costs: CostModel, s: Session, rows: seq<Row>, n: nat): (Session, Option<ExecError>) {
    if n == 0 then (s, None)
    else
      var (before, err) := SyncTo(costs, s, rows, n - 1);
      if err.Some? then (before, err) else SyncOne(costs, before, rows, n)
  }

  /** One whole reconcile against one snapshot. */
  function Reconcile(costs: CostModel, s: Session, rows: seq<Row>): (Session, Option<ExecError>) {
    SyncTo(costs, AdoptTo(costs, s, rows, s.seqNo).0, rows, s.seqNo)
  }

  /** The record gives an order its client id. */
  predicate OpensOrder(r: Record) { r.IntentRecord? || r.RiskReject? }

  /** A turn only appends to the journal, whatever it meets, and opens no order. */
  lemma TurnAppends(costs: CostModel, s: Session, rows: seq<Row>, id: nat)
    ensures s.journal <= SyncOne(costs, s, rows, id).0.journal
    ensures forall k :: |s.journal| <= k < |SyncOne(costs, s, rows, id).0.journal| ==>
              !OpensOrder(SyncOne(costs, s, rows, id).0.journal[k])
  {
  }

  // ---------------------------------------------------------------- the snapshot

  predicate NamedRows(rows: seq<Row>) {
    forall k :: 0 <= k < |rows| ==> rows[k].no != ""
  }

  predicate DistinctRows(rows: seq<Row>) {
    forall j, k :: 0 <= j < k < |rows| ==> rows[j].no != rows[k].no
  }

  /** A snapshot the source can rely on. */
  predicate GoodSnapshot(rows: seq<Row>) { NamedRows(rows) && DistinctRows(rows) }

  /** The row of an order shows another amount only with another quantity. */
  predicate AmountStands(o: Order, rows: seq<Row>) {
    RowFor(o, rows).Some? && RowFor(o, rows).value.filledQty == o.filledQty ==>
      RowFor(o, rows).value.filledAmount == o.filledAmount
  }

  predicate AmountsStand(orders: Orders, rows: seq<Row>) {
    forall id :: id in orders ==> AmountStands(orders[id], rows)
  }

  lemma {:induction false} CandidateFacts(o: Order, rows: seq<Row>, known: set<string>, k: nat)
    requires k < |Candidates(o, rows, known)|
    ensures var c := Candidates(o, rows, known)[k];
            c in rows && c.no !in known && Matches(o, c)
  {
    var init := rows[..|rows| - 1];
    if k < |Candidates(o, init, known)| {
      CandidateFacts(o, init, known, k);
    }
  }

  lemma {:induction false} RowOfFacts(rows: seq<Row>, no: string)
    ensures RowOf(rows, no).Some? ==> RowOf(rows, no).value in rows && RowOf(rows, no).value.no == no
    ensures RowOf(rows, no).None? ==> forall k :: 0 <= k < |rows| ==> rows[k].no != no
  {
    if rows != [] {
      RowOfFacts(rows[..|rows| - 1], no);
    }
  }

  /** An order's turn in the second loop raises nothing: there is no row for it, or one that does not run backwards,
      stays within the order and is consistent in itself. */
  predicate Readable(o: Order, rows: seq<Row>) {
    RowFor(o, rows).Some? ==>
      var row := RowFor(o, rows).value;
      Usable(o, rows, row) && DeriveStatus(row, HasCancelChild(rows, row.no)).Success?
  }

  // ---------------------------------------------------------------- reconciling is a run of actions

  lemma AdoptOneEnabled(costs: CostModel, s: Session, known: set<string>, rows: seq<Row>, id: nat)
    requires Shape(s) && NoPending(s.orders) && NamedRows(rows) && Known(s.orders) <= known
    requires id in s.orders && s.orders[id].status.Unknown?
    ensures var found := Candidates(s.orders[id], rows, known);
            && (|found| == 1 ==> Enabled(s, Adopt(id, RefOf(found[0]))))
            && (|found| > 1 ==> Enabled(s, Note(UnknownAmbiguous, id)))
  {
    if |Candidates(s.orders[id], rows, known)| == 1 {
      CandidateFacts(s.orders[id], rows, known, 0);
    }
  }

  lemma AdoptOneLawful(costs: CostModel, start: Balance, s: Session, known: set<string>, rows: seq<Row>, id: nat)
    requires SoundCosts(costs) && Lawful(start, s)
    requires NoPending(s.orders) && NamedRows(rows) && Known(s.orders) <= known
    ensures var r := AdoptOne(costs, s, known, rows, id);
            && Lawful(start, r.0) && NoPending(r.0.orders)
            && Known(r.0.orders) <= r.1
            && r.0.seqNo == s.seqNo && r.0.orders.Keys == s.orders.Keys
  {
    if id in s.orders && s.orders[id].status.Unknown? {
      var found := Candidates(s.orders[id], rows, known);
      AdoptOneEnabled(costs, s, known, rows, id);
      if |found| == 1 {
        ActionLawful(costs, start, s, Adopt(id, RefOf(found[0])));
        AdoptClaims(s.orders, id, RefOf(found[0]), known);
      } else if |found| > 1 {
        ActionLawful(costs, start, s, Note(UnknownAmbiguous, id));
      }
    }
  }

  lemma AdoptClaims(orders: Orders, id: nat, ref: BrokerRef, known: set<string>)
    requires id in orders && ref.no.Some? && Known(orders) <= known
    ensures Known(orders[id := orders[id].(ref := ref)]) <= known + {ref.no.value}
  {
  }

  /** The first loop keeps memory lawful, and its claims cover every number held. */
  lemma {:induction false} AdoptToLawful(costs: CostModel, start: Balance, s: Session, rows: seq<Row>, n: nat)
    requires SoundCosts(costs) && Lawful(start, s) && NoPending(s.orders) && NamedRows(rows)
    ensures var r := AdoptTo(costs, s, rows, n);
            && Lawful(start, r.0) && NoPending(r.0.orders)
            && Known(r.0.orders) <= r.1
            && r.0.seqNo == s.seqNo && r.0.orders.Keys == s.orders.Keys
  {
    if n > 0 {
      AdoptToLawful(costs, start, s, rows, n - 1);
      var (before, known) := AdoptTo(costs, s, rows, n - 1);
      AdoptOneLawful(costs, start, before, known, rows, n);
    }
  }

  lemma AdoptOneRuns(costs: CostModel, s: Session, known: set<string>, rows: seq<Row>, id: nat)
    returns (run: seq<Event>)
    requires Shape(s) && NoPending(s.orders) && NamedRows(rows) && Known(s.orders) <= known
    ensures Reaches(costs, s, run, AdoptOne(costs, s, known, rows, id).0)
  {
    run := [];
    if id in s.orders && s.orders[id].status.Unknown? {
      var found := Candidates(s.orders[id], rows, known);
      AdoptOneEnabled(costs, s, known, rows, id);
      if |found| == 1 {
        ReachesByAction(costs, s, [], s, Adopt(id, RefOf(found[0])));
        run := [] + [Act(Adopt(id, RefOf(found[0])))];
      } else if |found| > 1 {
        ReachesByAction(costs, s, [], s, Note(UnknownAmbiguous, id));
        run := [] + [Act(Note(UnknownAmbiguous, id))];
      }
    }
  }

  lemma AdoptTurnRuns(costs: CostModel, s: Session, rows: seq<Row>, n: nat, run: seq<Event>) returns (more: seq<Event>)
    requires n > 0 && Reaches(costs, s, run, AdoptTo(costs, s, rows, n - 1).0) && NamedRows(rows)
    requires var (before, known) := AdoptTo(costs, s, rows, n - 1);
             Shape(before) && NoPending(before.orders) && Known(before.orders) <= known
    ensures Reaches(costs, s, more, AdoptTo(costs, s, rows, n).0)
  {
    var (before, known) := AdoptTo(costs, s, rows, n - 1);
    var turn := AdoptOneRuns(costs, before, known, rows, n);
    ReachesOn(costs, s, run, before, turn, AdoptOne(costs, before, known, rows, n).0);
    more := run + turn;
  }

  lemma {:induction false} AdoptToRuns(costs: CostModel, start: Balance, s: Session, rows: seq<Row>, n: nat)
    returns (run: seq<Event>)
    requires SoundCosts(costs) && Lawful(start, s) && NoPending(s.orders) && NamedRows(rows)
    ensures Reaches(costs, s, run, AdoptTo(costs, s, rows, n).0)
  {
    run := [];
    if n > 0 {
      run := AdoptToRuns(costs, start, s, rows, n - 1);
      assert var (before, known) := AdoptTo(costs, s, rows, n - 1);
             Shape(before) && NoPending(before.orders) && Known(before.orders) <= known by {
        AdoptToLawful(costs, start, s, rows, n - 1);
      }
      run := AdoptTurnRuns(costs, s, rows, n, run);
    }
  }

  lemma AdoptToInv(costs: CostModel, start: Balance, s: Session, rows: seq<Row>, n: nat)
    requires SoundCosts(costs) && Inv(costs, start, s) && NoPending(s.orders) && NamedRows(rows)
    ensures var r := AdoptTo(costs, s, rows, n);
            && Inv(costs, start, r.0) && NoPending(r.0.orders)
            && Known(r.0.orders) <= r.1
            && r.0.seqNo == s.seqNo && r.0.orders.Keys == s.orders.Keys
  {
    AdoptToLawful(costs, start, s, rows, n);
    var run := AdoptToRuns(costs, start, s, rows, n);
    RunInv(costs, start, s, run);
  }

  // ---------------------------------------------------------------- what the second loop can and cannot raise

  /** Whatever the broker reports, no reachable order is asked for an illegal transition and no sell
      reaches the ledger's oversell branch. */
  lemma SyncRaises(costs: CostModel, s: Session, rows: seq<Row>, id: nat)
    requires Shape(s) && AllCovered(s.orders, s.ledger, s.seqNo) && NoPending(s.orders)
    ensures var err := SyncOne(costs, s, rows, id).1;
            err != Some(IllegalTransition) && err != Some(Oversell)
  {
    if id in s.orders && RowFor(s.orders[id], rows).Some? {
      var o, row := s.orders[id], RowFor(s.orders[id], rows).value;
      if o.filledQty <= row.filledQty <= o.intent.qty {
        DerivedMoveIsLegal(o.status, o.filledQty, row, HasCancelChild(rows, o.ref.no.value));
        if o.intent.side.Sell? {
          SellCovered(s, id);
        }
      }
    }
  }

  /** The order is in step with its row and the row is usable: nothing is raised and the order takes
      the row's fill and the derived status. */
  predicate Synced(o: Order, rows: seq<Row>, row: Row) {
    && o.filledQty == row.filledQty
    && o.filledAmount == row.filledAmount
    && DeriveStatus(row, HasCancelChild(rows, row.no)) == Success(o.status)
  }

  /** The row may be taken over: it belongs to the order and does not run backwards. */
  predicate Usable(o: Order, rows: seq<Row>, row: Row) {
    && RowFor(o, rows) == Some(row)
    && o.filledQty <= row.filledQty <= o.intent.qty
    && (row.filledQty > o.filledQty ==> row.filledAmount >= o.filledAmount)
  }

  function WithFill(o: Order, row: Row): Order { o.(filledQty := row.filledQty, filledAmount := row.filledAmount) }

  lemma UsableBook(s: Session, rows: seq<Row>, id: nat, row: Row)
    requires NoPending(s.orders) && NamedRows(rows) && id in s.orders && Usable(s.orders[id], rows, row)
    requires row.filledQty > s.orders[id].filledQty
    ensures Enabled(s, Book(id, row.filledQty, row.filledAmount))
  {
    RowOfFacts(rows, s.orders[id].ref.no.value);
  }

  lemma FillPartOrders(costs: CostModel, s: Session, rows: seq<Row>, id: nat, row: Row)
    requires Shape(s) && AllCovered(s.orders, s.ledger, s.seqNo) && NoPending(s.orders) && NamedRows(rows)
    requires id in s.orders && Usable(s.orders[id], rows, row)
    ensures var t := FillPart(costs, s, id, row);
            && t.orders == s.orders[id := WithFill(s.orders[id], row)]
            && t.seqNo == s.seqNo && NoPending(t.orders)
            && (row.filledQty == s.orders[id].filledQty && AmountStands(s.orders[id], rows) ==> t == s)
  {
    if row.filledQty > s.orders[id].filledQty {
      UsableBook(s, rows, id, row);
      BookSucceeds(costs, s, id, row.filledQty, row.filledAmount);
    } else {
      assert s.orders[id := s.orders[id]] == s.orders;
    }
  }

  lemma FillPartRuns(costs: CostModel, s: Session, rows: seq<Row>, id: nat, row: Row) returns (run: seq<Event>)
    requires Shape(s) && AllCovered(s.orders, s.ledger, s.seqNo) && NoPending(s.orders) && NamedRows(rows)
    requires id in s.orders && Usable(s.orders[id], rows, row) && AmountStands(s.orders[id], rows)
    ensures Reaches(costs, s, run, FillPart(costs, s, id, row))
  {
    FillPartOrders(costs, s, rows, id, row);
    run := [];
    if row.filledQty > s.orders[id].filledQty {
      UsableBook(s, rows, id, row);
      ReachesByAction(costs, s, [], s, Book(id, row.filledQty, row.filledAmount));
      run := [] + [Act(Book(id, row.filledQty, row.filledAmount))];
    }
  }

  /** A sync that raises nothing: the fill part, then the status if it changed or a fill was booked. */
  lemma SyncRowQuiet(costs: CostModel, s: Session, rows: seq<Row>, id: nat)
    requires Shape(s) && AllCovered(s.orders, s.ledger, s.seqNo) && NoPending(s.orders) && NamedRows(rows)
    requires id in s.orders && RowFor(s.orders[id], rows).Some?
    requires SyncOne(costs, s, rows, id).1.None?
    ensures var row := RowFor(s.orders[id], rows).value;
            var o := s.orders[id];
            var next := DeriveStatus(row, HasCancelChild(rows, row.no));
            && Usable(o, rows, row)
            && next.Success?
            && Transition(o.status, next.value) == Success(next.value)
            && StatusFits(next.value, row.filledQty)
            && !next.value.PendingSubmit? && !next.value.Unknown?
            && SyncOne(costs, s, rows, id).0
               == (if next.value != o.status || row.filledQty > o.filledQty
                   then Next(costs, FillPart(costs, s, id, row), Move(id, next.value))
                   else FillPart(costs, s, id, row))
  {
    var o, row := s.orders[id], RowFor(s.orders[id], rows).value;
    RowOfFacts(rows, o.ref.no.value);
    DerivedMoveIsLegal(o.status, o.filledQty, row, HasCancelChild(rows, row.no));
  }

  /** Whether a turn raises can be told from the order and its row. */
  lemma RaisesExactly(costs: CostModel, s: Session, rows: seq<Row>, id: nat)
    requires Shape(s) && AllCovered(s.orders, s.ledger, s.seqNo) && NoPending(s.orders) && NamedRows(rows)
    ensures SyncOne(costs, s, rows, id).1.None? <==> (id in s.orders ==> Readable(s.orders[id], rows))
  {
    if id in s.orders && RowFor(s.orders[id], rows).Some? {
      var o, row := s.orders[id], RowFor(s.orders[id], rows).value;
      RowOfFacts(rows, o.ref.no.value);
      if Readable(o, rows) {
        DerivedMoveIsLegal(o.status, o.filledQty, row, HasCancelChild(rows, row.no));
        if row.filledQty > o.filledQty {
          UsableBook(s, rows, id, row);
          BookSucceeds(costs, s, id, row.filledQty, row.filledAmount);
        }
      } else if SyncOne(costs, s, rows, id).1.None? {
        SyncRowQuiet(costs, s, rows, id);
      }
    }
  }

  lemma SyncMoveEnabled(costs: CostModel, s: Session, rows: seq<Row>, id: nat, row: Row, next: OrderStatus)
    requires Shape(s) && AllCovered(s.orders, s.ledger, s.seqNo) && NoPending(s.orders) && NamedRows(rows)
    requires id in s.orders && Usable(s.orders[id], rows, row)
    requires Transition(s.orders[id].status, next) == Success(next) && StatusFits(next, row.filledQty)
    ensures Enabled(FillPart(costs, s, id, row), Move(id, next))
  {
    FillPartOrders(costs, s, rows, id, row);
  }

  /** A sync that raises leaves orders and ledger alone; at most an audit record is written. */
  lemma SyncRowLoud(costs: CostModel, s: Session, rows: seq<Row>, id: nat)
    requires Shape(s) && AllCovered(s.orders, s.ledger, s.seqNo) && NoPending(s.orders)
    requires SyncOne(costs, s, rows, id).1.Some?
    ensures var t := SyncOne(costs, s, rows, id).0;
            && id in s.orders
            && (t == s || (Enabled(s, Note(IntegrityViolation, id)) && t == Next(costs, s, Note(IntegrityViolation, id))))
  {
    SyncRaises(costs, s, rows, id);
  }

  lemma SyncOneRuns(costs: CostModel, s: Session, rows: seq<Row>, id: nat) returns (run: seq<Event>)
    requires Shape(s) && AllCovered(s.orders, s.ledger, s.seqNo) && NoPending(s.orders) && NamedRows(rows)
    requires id in s.orders ==> AmountStands(s.orders[id], rows)
    ensures Reaches(costs, s, run, SyncOne(costs, s, rows, id).0)
  {
    run := [];
    if SyncOne(costs, s, rows, id).1.Some? {
      SyncRowLoud(costs, s, rows, id);
      if SyncOne(costs, s, rows, id).0 != s {
        ReachesByAction(costs, s, [], s, Note(IntegrityViolation, id));
        run := [] + [Act(Note(IntegrityViolation, id))];
      }
    } else if id in s.orders && RowFor(s.orders[id], rows).Some? {
      var row := RowFor(s.orders[id], rows).value;
      SyncRowQuiet(costs, s, rows, id);
      var next := DeriveStatus(row, HasCancelChild(rows, row.no)).value;
      run := FillPartRuns(costs, s, rows, id, row);
      if next != s.orders[id].status || row.filledQty > s.orders[id].filledQty {
        SyncMoveEnabled(costs, s, rows, id, row, next);
        ReachesByAction(costs, s, run, FillPart(costs, s, id, row), Move(id, next));
        run := run + [Act(Move(id, next))];
      }
    }
  }

  /** What a turn touches: at most its own order, and of that neither intent nor identifiers. */
  lemma SyncOneFrame(costs: CostModel, s: Session, rows: seq<Row>, id: nat)
    requires Shape(s) && AllCovered(s.orders, s.ledger, s.seqNo) && NoPending(s.orders) && NamedRows(rows)
    ensures var t := SyncOne(costs, s, rows, id).0;
            && t.seqNo == s.seqNo && t.orders.Keys == s.orders.Keys && NoPending(t.orders)
            && (forall k :: k in s.orders && k != id ==> t.orders[k] == s.orders[k])
            && (id in s.orders ==>
                  t.orders[id] == s.orders[id].(status := t.orders[id].status, filledQty := t.orders[id].filledQty,
                                                filledAmount := t.orders[id].filledAmount))
  {
    if SyncOne(costs, s, rows, id).1.Some? {
      SyncRowLoud(costs, s, rows, id);
    } else if id in s.orders && RowFor(s.orders[id], rows).Some? {
      SyncRowQuiet(costs, s, rows, id);
      FillPartOrders(costs, s, rows, id, RowFor(s.orders[id], rows).value);
    }
  }

  /** One order's turn in the second loop keeps every invariant. */
  lemma SyncOneInv(costs: CostModel, start: Balance, s: Session, rows: seq<Row>, id: nat)
    requires SoundCosts(costs) && Inv(costs, start, s) && NoPending(s.orders) && NamedRows(rows)
    requires id in s.orders ==> AmountStands(s.orders[id], rows)
    ensures Inv(costs, start, SyncOne(costs, s, rows, id).0)
  {
    var run := SyncOneRuns(costs, s, rows, id);
    RunInv(costs, start, s, run);
  }

  /** One turn of the second loop, on top of a run that led to it. */
  lemma SyncTurnRuns(costs: CostModel, s: Session, before: Session, rows: seq<Row>, n: nat, run: seq<Event>)
    returns (more: seq<Event>)
    requires Shape(before) && AllCovered(before.orders, before.ledger, before.seqNo) && NoPending(before.orders) && NamedRows(rows)
    requires n in before.orders ==> AmountStands(before.orders[n], rows)
    requires Reaches(costs, s, run, before)
    ensures Reaches(costs, s, more, SyncOne(costs, before, rows, n).0)
  {
    var turn := SyncOneRuns(costs, before, rows, n);
    ReachesOn(costs, s, run, before, turn, SyncOne(costs, before, rows, n).0);
    more := run + turn;
  }

  /** The second loop up to n, from a session whose amounts stand, is a run of actions. */
  lemma {:induction false} SyncToRuns(costs: CostModel, start: Balance, s: Session, rows: seq<Row>, n: nat)
    returns (run: seq<Event>)
    requires SoundCosts(costs) && Steady(start, s) && NamedRows(rows) && AmountsStand(s.orders, rows)
    ensures Reaches(costs, s, run, SyncTo(costs, s, rows, n).0)
  {
    run := [];
    if n > 0 {
      run := SyncToRuns(costs, start, s, rows, n - 1);
      var (before, err) := SyncTo(costs, s, rows, n - 1);
      if err.None? {
        assert Steady(start, before) && (n in before.orders ==> AmountStands(before.orders[n], rows)) by {
          SyncToSteady(costs, start, s, rows, n - 1);
        }
        run := SyncTurnRuns(costs, s, before, rows, n, run);
      }
    }
  }

  /** A whole reconcile is a run of actions, so everything proved of runs holds at each of its crash
      points; and no reconcile of a reachable session raises an illegal transition or an oversell. */
  lemma ReconcileRuns(costs: CostModel, start: Balance, s: Session, rows: seq<Row>) returns (run: seq<Event>)
    requires SoundCosts(costs) && Inv(costs, start, s) && NoPending(s.orders) && NamedRows(rows)
    requires AmountsStand(AdoptTo(costs, s, rows, s.seqNo).0.orders, rows)
    ensures Reaches(costs, s, run, Reconcile(costs, s, rows).0)
    ensures Inv(costs, start, Reconcile(costs, s, rows).0)
    ensures NoPending(Reconcile(costs, s, rows).0.orders)
  {
    var first := AdoptToRuns(costs, start, s, rows, s.seqNo);
    var mid := AdoptTo(costs, s, rows, s.seqNo).0;
    assert Steady(start, mid) by { AdoptToLawful(costs, start, s, rows, s.seqNo); }
    var second := SyncToRuns(costs, start, mid, rows, s.seqNo);
    ReachesOn(costs, s, first, mid, second, Reconcile(costs, s, rows).0);
    run := first + second;
    RunInv(costs, start, s, run);
    SyncToSteady(costs, start, mid, rows, s.seqNo);
  }

  // ---------------------------------------------------------------- whatever the broker reports

  /** What the second loop keeps whatever the broker reports, restated amounts included. */
  ghost predicate Steady(start: Balance, s: Session) {
    Shape(s) && Positions(s.orders, s.ledger, start, s.seqNo) && NoPending(s.orders)
  }

  lemma FillPartSteady(costs: CostModel, start: Balance, s: Session, rows: seq<Row>, id: nat, row: Row)
    requires SoundCosts(costs) && Steady(start, s) && NamedRows(rows)
    requires id in s.orders && Usable(s.orders[id], rows, row)
    ensures Steady(start, FillPart(costs, s, id, row))
  {
    var o := s.orders[id];
    RowOfFacts(rows, o.ref.no.value);
    if row.filledQty > o.filledQty {
      var a := Book(id, row.filledQty, row.filledAmount);
      ShapeKept(costs, s, a);
      PositionsKept(costs, start, s, a);
    } else {
      RewritePositions(s.orders, s.ledger, start, s.seqNo, id, o.(filledAmount := row.filledAmount));
    }
  }

  lemma SyncOneSteady(costs: CostModel, start: Balance, s: Session, rows: seq<Row>, id: nat)
    requires SoundCosts(costs) && Steady(start, s) && NamedRows(rows)
    ensures Steady(start, SyncOne(costs, s, rows, id).0)
  {
    SyncOneFrame(costs, s, rows, id);
    if SyncOne(costs, s, rows, id).1.Some? {
      SyncRowLoud(costs, s, rows, id);
    } else if id in s.orders && RowFor(s.orders[id], rows).Some? {
      var row := RowFor(s.orders[id], rows).value;
      SyncRowQuiet(costs, s, rows, id);
      var next := DeriveStatus(row, HasCancelChild(rows, row.no)).value;
      FillPartSteady(costs, start, s, rows, id, row);
      SyncMoveEnabled(costs, s, rows, id, row, next);
      var t := FillPart(costs, s, id, row);
      ShapeKept(costs, t, Move(id, next));
      PositionsKept(costs, start, t, Move(id, next));
    }
  }

  lemma {:induction false} SyncToSteady(costs: CostModel, start: Balance, s: Session, rows: seq<Row>, n: nat)
    requires SoundCosts(costs) && Steady(start, s) && NamedRows(rows)
    ensures var t := SyncTo(costs, s, rows, n).0;
            && Steady(start, t) && t.seqNo == s.seqNo && t.orders.Keys == s.orders.Keys
            && (forall k :: k in s.orders && k > n ==> t.orders[k] == s.orders[k])
    ensures SyncTo(costs, s, rows, n).1 != Some(IllegalTransition) && SyncTo(costs, s, rows, n).1 != Some(Oversell)
  {
    if n > 0 {
      SyncToSteady(costs, start, s, rows, n - 1);
      var t := SyncTo(costs, s, rows, n - 1).0;
      SyncOneFrame(costs, t, rows, n);
      SyncOneSteady(costs, start, t, rows, n);
      SyncRaises(costs, t, rows, n);
    }
  }

  lemma SyncOneLawful(costs: CostModel, start: Balance, s: Session, rows: seq<Row>, id: nat)
    requires SoundCosts(costs) && Lawful(start, s) && NoPending(s.orders) && NamedRows(rows)
    ensures var t := SyncOne(costs, s, rows, id).0;
            Lawful(start, t) && NoPending(t.orders) && t.seqNo == s.seqNo && t.orders.Keys == s.orders.Keys
  {
    var t := SyncOne(costs, s, rows, id).0;
    SyncOneSteady(costs, start, s, rows, id);
    SyncOneFrame(costs, s, rows, id);
    if id in s.orders {
      assert t.orders == s.orders[id := t.orders[id]];
      if SyncOne(costs, s, rows, id).1.Some? {
        SyncRowLoud(costs, s, rows, id);
      } else if RowFor(s.orders[id], rows).Some? {
        SyncRowQuiet(costs, s, rows, id);
        FillPartOrders(costs, s, rows, id, RowFor(s.orders[id], rows).value);
      }
      RewriteExclusive(s.orders, id, t.orders[id]);
    } else {
      assert t == s;
    }
  }

  lemma {:induction false} SyncToLawful(costs: CostModel, start: Balance, s: Session, rows: seq<Row>, n: nat)
    requires SoundCosts(costs) && Lawful(start, s) && NoPending(s.orders) && NamedRows(rows)
    ensures var t := SyncTo(costs, s, rows, n).0;
            Lawful(start, t) && NoPending(t.orders) && t.seqNo == s.seqNo && t.orders.Keys == s.orders.Keys
  {
    if n > 0 {
      SyncToLawful(costs, start, s, rows, n - 1);
      SyncOneLawful(costs, start, SyncTo(costs, s, rows, n - 1).0, rows, n);
    }
  }

  /** A reconcile of any list keeps memory lawful. */
  lemma ReconcileLawful(costs: CostModel, start: Balance, s: Session, rows: seq<Row>)
    requires SoundCosts(costs) && Lawful(start, s) && NoPending(s.orders) && NamedRows(rows)
    ensures var t := Reconcile(costs, s, rows).0;
            Lawful(start, t) && NoPending(t.orders) && t.seqNo == s.seqNo && t.orders.Keys == s.orders.Keys
  {
    AdoptToLawful(costs, start, s, rows, s.seqNo);
    SyncToLawful(costs, start, AdoptTo(costs, s, rows, s.seqNo).0, rows, s.seqNo);
  }
}
