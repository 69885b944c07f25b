/** Cash in paper trading: whoever reconciles after each submit never spends what is not there. */
module PaperSolvency {
  import opened Contracts
  import opened Arith
  import opened Accounting
  import opened Recovery
  import opened Sessions
  import opened Reconciling
  import opened Admission
  import opened OrderManagement
  import opened PaperTrading
  import opened Invariants
  import Risk

  // ---------------------------------------------------------------- costs

  /** Selling never costs more than it brings. */
  predicate SellCostsBounded(costs: CostModel) { costs.commissionBps + costs.sellTaxBps <= 10000.0 }

  lemma CommissionMonotone(costs: CostModel, a: int, b: int)
    requires SoundCosts(costs) && a <= b
    ensures costs.Commission(a) <= costs.Commission(b)
  {
    assert (b - a) as real * costs.commissionBps >= 0.0;
    assert a as real * costs.commissionBps <= b as real * costs.commissionBps;
  }

  lemma ProceedsNonNegative(costs: CostModel, amount: int)
    requires SoundCosts(costs) && SellCostsBounded(costs) && amount >= 0
    ensures amount - costs.Commission(amount) - costs.SellTax(amount) >= 0
  {
    var a := amount as real;
    assert a * (costs.commissionBps + costs.sellTaxBps) <= a * 10000.0;
    assert a * (costs.commissionBps + costs.sellTaxBps) == a * costs.commissionBps + a * costs.sellTaxBps;
  }

  // ---------------------------------------------------------------- fills not yet booked

  /** What booking an order's row would cost: the part of the fill the ledger does not know yet. */
  function Owed(costs: CostModel, o: Order, rows: seq<Row>): int {
    match RowFor(o, rows)
    case None => 0
    case Some(row) =>
      if o.intent.side.Buy? && row.filledQty > o.filledQty then
        var amount := row.filledAmount - o.filledAmount;
        amount + costs.Commission(amount)
      else 0
  }

  function OwedTo(costs: CostModel, orders: Orders, rows: seq<Row>, n: nat): int {
    if n == 0 then 0
    else OwedTo(costs, orders, rows, n - 1) + if n in orders then Owed(costs, orders[n], rows) else 0
  }

  lemma {:induction false} OwedUpdate(costs: CostModel, orders: Orders, rows: seq<Row>, id: nat, o: Order, n: nat)
    requires id in orders
    ensures OwedTo(costs, orders[id := o], rows, n)
            == OwedTo(costs, orders, rows, n) + if 1 <= id <= n then Owed(costs, o, rows) - Owed(costs, orders[id], rows) else 0
  {
    if n > 0 {
      OwedUpdate(costs, orders, rows, id, o, n - 1);
    }
  }

  lemma {:induction false} OwedAgree(costs: CostModel, a: Orders, b: Orders, rows: seq<Row>, rows': seq<Row>, n: nat)
    requires forall id :: 1 <= id <= n ==>
               (id in a <==> id in b) && (id in a ==> Owed(costs, a[id], rows) == Owed(costs, b[id], rows'))
    ensures OwedTo(costs, a, rows, n) == OwedTo(costs, b, rows', n)
  {
    if n > 0 {
      OwedAgree(costs, a, b, rows, rows', n - 1);
    }
  }

  /** A row that was filled in one go is unknown to its order or taken over whole. */
  predicate Fits(o: Order, rows: seq<Row>) {
    RowFor(o, rows).Some? ==>
      var row := RowFor(o, rows).value;
      && 0 <= row.filledQty <= o.intent.qty && row.filledAmount >= 0 && row.orderedQty == o.intent.qty
      && ((o.filledQty == 0 && o.filledAmount == 0 && (row.filledQty == 0 ==> row.filledAmount == 0))
          || (o.filledQty == row.filledQty && o.filledAmount == row.filledAmount))
  }

  predicate AllFit(orders: Orders, rows: seq<Row>) { forall id :: id in orders ==> Fits(orders[id], rows) }

  lemma OwedNonNegative(costs: CostModel, o: Order, rows: seq<Row>)
    requires SoundCosts(costs) && Fits(o, rows)
    ensures Owed(costs, o, rows) >= 0
  {
    if RowFor(o, rows).Some? {
      CommissionNonNegative(costs, RowFor(o, rows).value.filledAmount);
    }
  }

  lemma {:induction false} OwedToNonNegative(costs: CostModel, orders: Orders, rows: seq<Row>, n: nat)
    requires SoundCosts(costs) && AllFit(orders, rows)
    ensures OwedTo(costs, orders, rows, n) >= 0
  {
    if n > 0 {
      OwedToNonNegative(costs, orders, rows, n - 1);
      if n in orders {
        OwedNonNegative(costs, orders[n], rows);
      }
    }
  }

  // ---------------------------------------------------------------- reconciling

  /** One turn of the second loop: it books the whole row or leaves ledger and fill alone. */
  lemma TurnBooks(costs: CostModel, s: Session, rows: seq<Row>, id: nat)
    requires id in s.orders && RowFor(s.orders[id], rows).Some? && Fits(s.orders[id], rows)
    ensures var t := SyncOne(costs, s, rows, id).0;
            var o, row := s.orders[id], RowFor(s.orders[id], rows).value;
            && t.seqNo == s.seqNo && id in t.orders && t.orders == s.orders[id := t.orders[id]]
            && t.orders[id].intent == o.intent && t.orders[id].ref == o.ref
            && (t.orders[id].status == o.status || !t.orders[id].status.Unknown?)
            && (if t.ledger == s.ledger then
                  t.orders[id].filledQty == o.filledQty && t.orders[id].filledAmount == o.filledAmount
                else
                  && row.filledQty > o.filledQty
                  && ApplyFill(costs, s.ledger, o.intent.symbol, o.intent.side, row.filledQty - o.filledQty,
                               row.filledAmount - o.filledAmount).Success?
                  && t.ledger == ApplyFill(costs, s.ledger, o.intent.symbol, o.intent.side, row.filledQty - o.filledQty,
                                           row.filledAmount - o.filledAmount).value.0
                  && t.orders[id].filledQty == row.filledQty && t.orders[id].filledAmount == row.filledAmount)
  {
  }

  /** A turn that raises nothing leaves nothing owed. */
  lemma TurnSettles(costs: CostModel, s: Session, rows: seq<Row>, id: nat)
    requires id in s.orders && RowFor(s.orders[id], rows).Some? && SyncOne(costs, s, rows, id).1.None?
    ensures var t := SyncOne(costs, s, rows, id).0;
            id in t.orders && t.orders[id].filledQty == RowFor(s.orders[id], rows).value.filledQty
  {
  }

  lemma SameRow(o: Order, p: Order, rows: seq<Row>)
    requires p.ref == o.ref && p.intent == o.intent && RowFor(o, rows).Some?
    ensures RowFor(p, rows).None? || RowFor(p, rows) == RowFor(o, rows)
  {
  }

  /** What an order owes after its turn. */
  lemma TurnPays(costs: CostModel, s: Session, rows: seq<Row>, id: nat)
    requires SoundCosts(costs) && SellCostsBounded(costs)
    requires id in s.orders && RowFor(s.orders[id], rows).Some? && Fits(s.orders[id], rows)
    ensures var t := SyncOne(costs, s, rows, id).0;
            && id in t.orders && Fits(t.orders[id], rows)
            && t.ledger.cash - Owed(costs, t.orders[id], rows) >= s.ledger.cash - Owed(costs, s.orders[id], rows)
            && (SyncOne(costs, s, rows, id).1.None? ==> Owed(costs, t.orders[id], rows) == 0)
  {
    var t := SyncOne(costs, s, rows, id).0;
    var o, row := s.orders[id], RowFor(s.orders[id], rows).value;
    TurnBooks(costs, s, rows, id);
    SameRow(o, t.orders[id], rows);
    OwedNonNegative(costs, o, rows);
    if SyncOne(costs, s, rows, id).1.None? {
      TurnSettles(costs, s, rows, id);
    }
    if o.intent.side.Sell? && t.ledger != s.ledger {
      ProceedsNonNegative(costs, row.filledAmount - o.filledAmount);
    }
  }

  predicate NoUnknown(orders: Orders) { forall id :: id in orders ==> !orders[id].status.Unknown? }

  /** Cash less what is owed, over all orders. */
  function Free(costs: CostModel, s: Session, rows: seq<Row>): int { s.ledger.cash - OwedTo(costs, s.orders, rows, s.seqNo) }

  ghost predicate Orderly(s: Session, rows: seq<Row>) {
    AllFit(s.orders, rows) && NoUnknown(s.orders) && forall id :: id in s.orders ==> 1 <= id <= s.seqNo
  }

  /** Same orders under the same names: nothing else of them has changed but status and fill. */
  predicate SameOrders(a: Orders, b: Orders) {
    a.Keys == b.Keys && forall id :: id in a ==> b[id].intent == a[id].intent && b[id].ref == a[id].ref
  }

  lemma TurnKeeps(costs: CostModel, s: Session, rows: seq<Row>, id: nat)
    requires SoundCosts(costs) && SellCostsBounded(costs) && Orderly(s, rows)
    ensures var t := SyncOne(costs, s, rows, id).0;
            && Orderly(t, rows) && t.seqNo == s.seqNo && SameOrders(s.orders, t.orders)
            && Free(costs, t, rows) >= Free(costs, s, rows)
            && (forall k :: k in s.orders && k != id ==> t.orders[k] == s.orders[k])
            && (SyncOne(costs, s, rows, id).1.None? && id in t.orders ==> Owed(costs, t.orders[id], rows) == 0)
  {
    if id in s.orders && RowFor(s.orders[id], rows).Some? {
      var t := SyncOne(costs, s, rows, id).0;
      TurnBooks(costs, s, rows, id);
      TurnPays(costs, s, rows, id);
      OwedUpdate(costs, s.orders, rows, id, t.orders[id], s.seqNo);
    }
  }

  predicate NothingOwed(costs: CostModel, orders: Orders, rows: seq<Row>, n: nat) {
    forall id :: id in orders && id <= n ==> Owed(costs, orders[id], rows) == 0
  }

  lemma {:induction false} LoopKeeps(costs: CostModel, s: Session, rows: seq<Row>, n: nat)
    requires SoundCosts(costs) && SellCostsBounded(costs) && Orderly(s, rows)
    ensures var t := SyncTo(costs, s, rows, n).0;
            && Orderly(t, rows) && t.seqNo == s.seqNo && SameOrders(s.orders, t.orders)
            && Free(costs, t, rows) >= Free(costs, s, rows)
            && (SyncTo(costs, s, rows, n).1.None? ==> NothingOwed(costs, t.orders, rows, n))
  {
    if n > 0 {
      LoopKeeps(costs, s, rows, n - 1);
      var (before, err) := SyncTo(costs, s, rows, n - 1);
      if err.None? {
        TurnKeeps(costs, before, rows, n);
      }
    }
  }

  lemma {:induction false} NoneAdopted(costs: CostModel, s: Session, rows: seq<Row>, n: nat)
    requires NoUnknown(s.orders)
    ensures AdoptTo(costs, s, rows, n).0 == s
  {
    if n > 0 {
      NoneAdopted(costs, s, rows, n - 1);
    }
  }

  lemma {:induction false} NothingOwedSums(costs: CostModel, orders: Orders, rows: seq<Row>, n: nat)
    requires NothingOwed(costs, orders, rows, n)
    ensures OwedTo(costs, orders, rows, n) == 0
  {
    if n > 0 {
      NothingOwedSums(costs, orders, rows, n - 1);
    }
  }

  /** Reconciling never lowers cash less what is owed, and if it raises nothing, nothing is owed afterwards. */
  lemma ReconcileKeeps(costs: CostModel, s: Session, rows: seq<Row>)
    requires SoundCosts(costs) && SellCostsBounded(costs) && Orderly(s, rows)
    ensures var t := Reconcile(costs, s, rows).0;
            && Orderly(t, rows) && t.seqNo == s.seqNo && SameOrders(s.orders, t.orders)
            && Free(costs, t, rows) >= Free(costs, s, rows)
            && (Reconcile(costs, s, rows).1.None? ==> OwedTo(costs, t.orders, rows, t.seqNo) == 0)
  {
    NoneAdopted(costs, s, rows, s.seqNo);
    LoopKeeps(costs, s, rows, s.seqNo);
    var t := Reconcile(costs, s, rows).0;
    if Reconcile(costs, s, rows).1.None? {
      NothingOwedSums(costs, t.orders, rows, t.seqNo);
    }
  }

  // ---------------------------------------------------------------- buys and sells together

  /** What booking an order's row takes out of the cash: its cost for a buy, less its proceeds for a sell. */
  function Net(costs: CostModel, o: Order, rows: seq<Row>): int {
    match RowFor(o, rows)
    case None => 0
    case Some(row) =>
      if row.filledQty <= o.filledQty then 0
      else
        var amount := row.filledAmount - o.filledAmount;
        if o.intent.side.Buy? then amount + costs.Commission(amount)
        else costs.Commission(amount) + costs.SellTax(amount) - amount
  }

  function NetTo(costs: CostModel, orders: Orders, rows: seq<Row>, n: nat): int {
    if n == 0 then 0
    else NetTo(costs, orders, rows, n - 1) + if n in orders then Net(costs, orders[n], rows) else 0
  }

  lemma {:induction false} NetUpdate(costs: CostModel, orders: Orders, rows: seq<Row>, id: nat, o: Order, n: nat)
    requires id in orders
    ensures NetTo(costs, orders[id := o], rows, n)
            == NetTo(costs, orders, rows, n) + if 1 <= id <= n then Net(costs, o, rows) - Net(costs, orders[id], rows) else 0
  {
    if n > 0 {
      NetUpdate(costs, orders, rows, id, o, n - 1);
    }
  }

  /** A turn takes out of the cash exactly what it books. */
  lemma TurnNets(costs: CostModel, s: Session, rows: seq<Row>, id: nat)
    requires id in s.orders && RowFor(s.orders[id], rows).Some? && Fits(s.orders[id], rows)
    requires SyncOne(costs, s, rows, id).1.None?
    ensures var t := SyncOne(costs, s, rows, id).0;
            && id in t.orders && Net(costs, t.orders[id], rows) == 0
            && t.ledger.cash == s.ledger.cash - Net(costs, s.orders[id], rows)
  {
    var t := SyncOne(costs, s, rows, id).0;
    TurnBooks(costs, s, rows, id);
    TurnSettles(costs, s, rows, id);
    SameRow(s.orders[id], t.orders[id], rows);
  }

  predicate NothingDue(costs: CostModel, orders: Orders, rows: seq<Row>, n: nat) {
    forall id :: id in orders && id <= n ==> Net(costs, orders[id], rows) == 0
  }

  lemma {:induction false} NothingDueSums(costs: CostModel, orders: Orders, rows: seq<Row>, n: nat)
    requires NothingDue(costs, orders, rows, n)
    ensures NetTo(costs, orders, rows, n) == 0
  {
    if n > 0 {
      NothingDueSums(costs, orders, rows, n - 1);
    }
  }

  lemma {:induction false} LoopNets(costs: CostModel, s: Session, rows: seq<Row>, n: nat)
    requires SoundCosts(costs) && SellCostsBounded(costs) && Orderly(s, rows) && SyncTo(costs, s, rows, n).1.None?
    ensures var t := SyncTo(costs, s, rows, n).0;
            && NothingDue(costs, t.orders, rows, n)
            && t.ledger.cash - NetTo(costs, t.orders, rows, s.seqNo) == s.ledger.cash - NetTo(costs, s.orders, rows, s.seqNo)
  {
    if n > 0 {
      LoopNets(costs, s, rows, n - 1);
      LoopKeeps(costs, s, rows, n - 1);
      TurnNetsAll(costs, SyncTo(costs, s, rows, n - 1).0, rows, n);
    }
  }

  lemma TurnNetsAll(costs: CostModel, s: Session, rows: seq<Row>, id: nat)
    requires SoundCosts(costs) && SellCostsBounded(costs) && Orderly(s, rows) && SyncOne(costs, s, rows, id).1.None?
    ensures var t := SyncOne(costs, s, rows, id).0;
            && (forall k :: k in s.orders && k != id ==> k in t.orders && t.orders[k] == s.orders[k])
            && t.orders.Keys == s.orders.Keys
            && (id in t.orders ==> Net(costs, t.orders[id], rows) == 0)
            && t.ledger.cash - NetTo(costs, t.orders, rows, s.seqNo) == s.ledger.cash - NetTo(costs, s.orders, rows, s.seqNo)
  {
    TurnKeeps(costs, s, rows, id);
    if id in s.orders && RowFor(s.orders[id], rows).Some? {
      var t := SyncOne(costs, s, rows, id).0;
      TurnBooks(costs, s, rows, id);
      TurnNets(costs, s, rows, id);
      NetUpdate(costs, s.orders, rows, id, t.orders[id], s.seqNo);
    }
  }

  /** A reconcile that raises nothing takes out of the cash exactly what was due. */
  lemma ReconcileNets(costs: CostModel, s: Session, rows: seq<Row>)
    requires SoundCosts(costs) && SellCostsBounded(costs) && Orderly(s, rows) && Reconcile(costs, s, rows).1.None?
    ensures Reconcile(costs, s, rows).0.ledger.cash == s.ledger.cash - NetTo(costs, s.orders, rows, s.seqNo)
  {
    NoneAdopted(costs, s, rows, s.seqNo);
    LoopNets(costs, s, rows, s.seqNo);
    NothingDueSums(costs, Reconcile(costs, s, rows).0.orders, rows, s.seqNo);
  }

  // ---------------------------------------------------------------- paper reconciles raise nothing

  lemma TurnQuiet(costs: CostModel, start: Balance, s: Session, rows: seq<Row>, id: nat)
    requires Steady(start, s) && Orderly(s, rows)
    ensures SyncOne(costs, s, rows, id).1.None?
  {
    SyncRaises(costs, s, rows, id);
  }

  lemma {:induction false} LoopQuiet(costs: CostModel, start: Balance, s: Session, rows: seq<Row>, n: nat)
    requires SoundCosts(costs) && SellCostsBounded(costs) && Steady(start, s) && Orderly(s, rows) && NamedRows(rows)
    ensures SyncTo(costs, s, rows, n).1.None?
  {
    if n > 0 {
      LoopQuiet(costs, start, s, rows, n - 1);
      LoopKeeps(costs, s, rows, n - 1);
      SyncToSteady(costs, start, s, rows, n - 1);
      TurnQuiet(costs, start, SyncTo(costs, s, rows, n - 1).0, rows, n);
    }
  }

  lemma ReconcileQuiet(costs: CostModel, start: Balance, s: Session, rows: seq<Row>)
    requires SoundCosts(costs) && SellCostsBounded(costs) && Steady(start, s) && Orderly(s, rows) && NamedRows(rows)
    ensures Reconcile(costs, s, rows).1.None? && Steady(start, Reconcile(costs, s, rows).0)
  {
    NoneAdopted(costs, s, rows, s.seqNo);
    LoopQuiet(costs, start, s, rows, s.seqNo);
    SyncToSteady(costs, start, s, rows, s.seqNo);
  }

  // ---------------------------------------------------------------- names

  /** Sequence numbers render to distinct, non-empty names. */
  ghost predicate Naming(name: nat -> string) {
    (forall a, b :: name(a) == name(b) ==> a == b) && forall a :: name(a) != ""
  }

  lemma {:induction false} RowAt(name: nat -> string, book: seq<Entry>, k: nat)
    requires Naming(name) && k < |book|
    ensures RowOf(Statuses(name, book), name(k + 1)) == Some(StatusRow(name(k + 1), book[k]))
  {
    var rows := Statuses(name, book);
    if k < |book| - 1 {
      assert rows[..|rows| - 1] == Statuses(name, book[..|book| - 1]);
      assert rows[|rows| - 1].no == name(|book|);
      RowAt(name, book[..|book| - 1], k);
    }
  }

  lemma NewRow(name: nat -> string, book: seq<Entry>, e: Entry, no: string)
    requires no != name(|book| + 1)
    ensures RowOf(Statuses(name, book + [e]), no) == RowOf(Statuses(name, book), no)
  {
    var rows := Statuses(name, book + [e]);
    assert rows[..|rows| - 1] == Statuses(name, book);
    assert rows[|rows| - 1].no == name(|book| + 1);
  }

  /** The book entry an order's number stands for. */
  predicate Standing(name: nat -> string, o: Order, book: seq<Entry>) {
    o.ref.no.Some? ==> exists k :: 0 <= k < |book| && o.ref.no.value == name(k + 1) && book[k].intent == o.intent
  }

  predicate Linked(name: nat -> string, orders: Orders, book: seq<Entry>) {
    forall id :: id in orders ==> Standing(name, orders[id], book)
  }

  predicate EntryOk(e: Entry) {
    && 0 <= e.filledQty <= e.intent.qty && e.filledAmount >= 0 && (e.filledQty == 0 ==> e.filledAmount == 0)
    && e.reservePrice >= 0
  }

  // ---------------------------------------------------------------- paper sessions

  /** `synced`: no order has been accepted since the last reconcile. */
  datatype Paper = Paper(s: Session, book: seq<Entry>, synced: bool)

  datatype PaperEvent = Submit(i: Intent, q: Quote, w: Surroundings) | DoReconcile | DoCancel(k: nat)

  function OrderableCash(p: Paper): int { p.s.ledger.cash - Reserved(p.book) }

  function PaperGate(costs: CostModel, limits: Risk.Limits, p: Paper, i: Intent, q: Quote, w: Surroundings): Option<RejectCode> {
    Gate(costs, limits, p.s, false, i, q, w.(orderableCash := OrderableCash(p)))
  }

  function PaperSubmit(costs: CostModel, limits: Risk.Limits, name: nat -> string, p: Paper, i: Intent, q: Quote, w: Surroundings): Paper {
    var ref := BrokerRef(Some(name(|p.book| + 1)), Some("PAPER"), None);
    var s := Submitted(costs, limits, false, p.s, i, q, w.(orderableCash := OrderableCash(p)), Some(Outcome(OutcomeAccepted, ref)));
    if PaperGate(costs, limits, p, i, q, w).Some? then p.(s := s)
    else Paper(s, p.book + [EntryFor(i, q, Risk.ReferencePrice(i, q).value)], false)
  }

  function PaperNext(costs: CostModel, limits: Risk.Limits, name: nat -> string, p: Paper, e: PaperEvent): Paper {
    match e
    case Submit(i, q, w) => PaperSubmit(costs, limits, name, p, i, q, w)
    case DoReconcile =>
      Paper(Reconcile(costs, p.s, Statuses(name, p.book)).0, p.book, true)
    case DoCancel(k) =>
      if k < |p.book| && p.book[k].filledQty != p.book[k].intent.qty
      then p.(book := p.book[k := p.book[k].(cancelled := true)]) else p
  }

  function PaperRun(costs: CostModel, limits: Risk.Limits, name: nat -> string, p: Paper, events: seq<PaperEvent>): Paper {
    if events == [] then p
    else PaperNext(costs, limits, name, PaperRun(costs, limits, name, p, events[..|events| - 1]), events[|events| - 1])
  }

  /** Orders and book belong together. */
  ghost predicate Neat(name: nat -> string, p: Paper) {
    && Orderly(p.s, Statuses(name, p.book)) && Linked(name, p.s.orders, p.book)
    && (forall k :: 0 <= k < |p.book| ==> EntryOk(p.book[k]))
  }

  ghost predicate Safe(costs: CostModel, name: nat -> string, p: Paper) {
    && Neat(name, p)
    && Free(costs, p.s, Statuses(name, p.book)) >= Reserved(p.book)
    && (p.synced ==> OwedTo(costs, p.s.orders, Statuses(name, p.book), p.s.seqNo) == 0)
  }

  lemma NamesGood(name: nat -> string, book: seq<Entry>)
    requires Naming(name)
    ensures NamedRows(Statuses(name, book))
  {
  }

  lemma ReconcileNeat(costs: CostModel, start: Balance, limits: Risk.Limits, name: nat -> string, p: Paper)
    requires SoundCosts(costs) && SellCostsBounded(costs) && Naming(name) && Neat(name, p) && Steady(start, p.s)
    ensures Neat(name, PaperNext(costs, limits, name, p, DoReconcile))
    ensures Steady(start, PaperNext(costs, limits, name, p, DoReconcile).s)
  {
    NamesGood(name, p.book);
    ReconcileQuiet(costs, start, p.s, Statuses(name, p.book));
    ReconcileKeeps(costs, p.s, Statuses(name, p.book));
  }

  lemma ReconcileSafe(costs: CostModel, start: Balance, limits: Risk.Limits, name: nat -> string, p: Paper)
    requires SoundCosts(costs) && SellCostsBounded(costs) && Naming(name) && Safe(costs, name, p) && Steady(start, p.s)
    ensures Safe(costs, name, PaperNext(costs, limits, name, p, DoReconcile))
    ensures Steady(start, PaperNext(costs, limits, name, p, DoReconcile).s)
  {
    NamesGood(name, p.book);
    ReconcileQuiet(costs, start, p.s, Statuses(name, p.book));
    ReconcileKeeps(costs, p.s, Statuses(name, p.book));
  }

  // ---------------------------------------------------------------- cancelling

  lemma {:induction false} ReservedUpdate(book: seq<Entry>, k: nat, e: Entry)
    requires k < |book|
    ensures Reserved(book[k := e]) == Reserved(book) - HeldBack(book[k]) + HeldBack(e)
  {
    var next := book[k := e];
    if k == |book| - 1 {
      assert next[..|next| - 1] == book[..|book| - 1];
    } else {
      assert next[..|next| - 1] == book[..|book| - 1][k := e];
      ReservedUpdate(book[..|book| - 1], k, e);
    }
  }

  /** Cancelling changes no fill, so no order owes more or less. */
  lemma CancelSameFill(costs: CostModel, name: nat -> string, o: Order, book: seq<Entry>, k: nat)
    requires Naming(name) && k < |book| && Standing(name, o, book) && Fits(o, Statuses(name, book))
    ensures var after := book[k := book[k].(cancelled := true)];
            && Standing(name, o, after) && Fits(o, Statuses(name, after))
            && Owed(costs, o, Statuses(name, after)) == Owed(costs, o, Statuses(name, book))
  {
    var after := book[k := book[k].(cancelled := true)];
    if o.ref.no.Some? {
      var j :| 0 <= j < |book| && o.ref.no.value == name(j + 1) && book[j].intent == o.intent;
      assert after[j].intent == o.intent;
      RowAt(name, book, j);
      RowAt(name, after, j);
    }
  }

  lemma HeldBackNonNegative(e: Entry)
    requires EntryOk(e)
    ensures HeldBack(e) >= 0
  {
    MulNonNegative(e.intent.qty - e.filledQty, e.reservePrice);
  }

  lemma CancelNeat(costs: CostModel, limits: Risk.Limits, name: nat -> string, p: Paper, k: nat)
    requires Naming(name) && Neat(name, p)
    ensures var next := PaperNext(costs, limits, name, p, DoCancel(k));
            && Neat(name, next) && next.s == p.s && next.synced == p.synced && Reserved(next.book) <= Reserved(p.book)
            && OwedTo(costs, p.s.orders, Statuses(name, next.book), p.s.seqNo)
               == OwedTo(costs, p.s.orders, Statuses(name, p.book), p.s.seqNo)
  {
    if k < |p.book| && p.book[k].filledQty != p.book[k].intent.qty {
      var after := p.book[k := p.book[k].(cancelled := true)];
      var rows, rows' := Statuses(name, p.book), Statuses(name, after);
      forall id | id in p.s.orders
        ensures Standing(name, p.s.orders[id], after) && Fits(p.s.orders[id], rows')
        ensures Owed(costs, p.s.orders[id], rows') == Owed(costs, p.s.orders[id], rows)
      {
        CancelSameFill(costs, name, p.s.orders[id], p.book, k);
      }
      OwedAgree(costs, p.s.orders, p.s.orders, rows, rows', p.s.seqNo);
      ReservedUpdate(p.book, k, after[k]);
      HeldBackNonNegative(p.book[k]);
    }
  }

  lemma CancelSafe(costs: CostModel, limits: Risk.Limits, name: nat -> string, p: Paper, k: nat)
    requires Naming(name) && Safe(costs, name, p)
    ensures Safe(costs, name, PaperNext(costs, limits, name, p, DoCancel(k)))
  {
    CancelNeat(costs, limits, name, p, k);
  }

  // ---------------------------------------------------------------- submitting

  /** A rejected submit adds an order without a number. */
  lemma RejectedNeat(costs: CostModel, limits: Risk.Limits, name: nat -> string, p: Paper, i: Intent, q: Quote, w: Surroundings)
    requires Neat(name, p) && PaperGate(costs, limits, p, i, q, w).Some?
    ensures var next := PaperSubmit(costs, limits, name, p, i, q, w);
            && Neat(name, next) && next.book == p.book && next.synced == p.synced && next.s.ledger == p.s.ledger
            && OwedTo(costs, next.s.orders, Statuses(name, next.book), next.s.seqNo)
               == OwedTo(costs, p.s.orders, Statuses(name, p.book), p.s.seqNo)
  {
    var next := PaperSubmit(costs, limits, name, p, i, q, w);
    var rows := Statuses(name, p.book);
    RejectedOrder(costs, limits, name, p, i, q, w);
    OwedAgree(costs, p.s.orders, next.s.orders, rows, rows, p.s.seqNo);
  }

  lemma RejectedSafe(costs: CostModel, limits: Risk.Limits, name: nat -> string, p: Paper, i: Intent, q: Quote, w: Surroundings)
    requires Safe(costs, name, p) && PaperGate(costs, limits, p, i, q, w).Some?
    ensures Safe(costs, name, PaperSubmit(costs, limits, name, p, i, q, w))
  {
    RejectedNeat(costs, limits, name, p, i, q, w);
  }

  lemma RejectedOrder(costs: CostModel, limits: Risk.Limits, name: nat -> string, p: Paper, i: Intent, q: Quote, w: Surroundings)
    requires PaperGate(costs, limits, p, i, q, w).Some?
    ensures var next, id := PaperSubmit(costs, limits, name, p, i, q, w), p.s.seqNo + 1;
            && next.book == p.book && next.synced == p.synced && next.s.ledger == p.s.ledger && next.s.seqNo == id
            && id in next.s.orders && next.s.orders == p.s.orders[id := next.s.orders[id]]
            && next.s.orders[id].ref.no.None? && next.s.orders[id].filledQty == 0 && next.s.orders[id].filledAmount == 0
  {
  }

  /** An accepted submit adds one order, accepted under the next name and not yet filled. */
  lemma AcceptedOrder(costs: CostModel, limits: Risk.Limits, name: nat -> string, p: Paper, i: Intent, q: Quote, w: Surroundings)
    requires PaperGate(costs, limits, p, i, q, w).None?
    ensures Risk.ReferencePrice(i, q).Success?
    ensures var next, id := PaperSubmit(costs, limits, name, p, i, q, w), p.s.seqNo + 1;
            && next.book == p.book + [EntryFor(i, q, Risk.ReferencePrice(i, q).value)]
            && next.s.ledger == p.s.ledger && next.s.seqNo == id && id in next.s.orders
            && next.s.orders == p.s.orders[id := next.s.orders[id]]
            && next.s.orders[id].intent == i && next.s.orders[id].status.Accepted?
            && next.s.orders[id].ref.no == Some(name(|p.book| + 1))
            && next.s.orders[id].filledQty == 0 && next.s.orders[id].filledAmount == 0
  {
  }

  /** The gate admitted the order: cash that is not held back covers it at its reference price. */
  lemma GateCovers(costs: CostModel, limits: Risk.Limits, p: Paper, i: Intent, q: Quote, w: Surroundings)
    requires PaperGate(costs, limits, p, i, q, w).None? && FairBook(q)
    ensures Risk.ReferencePrice(i, q).Success? && i.qty >= 1
    ensures var price := Risk.ReferencePrice(i, q).value;
            && (i.side.Buy? ==>
                  && price >= 0
                  && i.qty * price + costs.Commission(i.qty * price) <= OrderableCash(p)
                  && forall k :: 0 <= k < |q.asks| && InReach(i, q.asks[k].0) ==> q.asks[k].0 <= price)
  {
  }

  /** A buy costs at most its notional and the commission on it: the filled part is paid, the rest held back. */
  lemma BuyCosts(costs: CostModel, i: Intent, q: Quote, price: int)
    requires SoundCosts(costs) && FairBook(q) && i.side.Buy? && i.qty >= 1 && price >= 0
    requires forall k :: 0 <= k < |q.asks| && InReach(i, q.asks[k].0) ==> q.asks[k].0 <= price
    ensures var e := EntryFor(i, q, price);
            && EntryOk(e)
            && e.filledAmount + costs.Commission(e.filledAmount) + HeldBack(e) <= i.qty * price + costs.Commission(i.qty * price)
  {
    var e := EntryFor(i, q, price);
    SweepTakes(q.asks, i, i.qty);
    SweepPays(q.asks, i, i.qty, price);
    DistributeSum(e.filledQty, i.qty - e.filledQty, price);
    MulNonNegative(i.qty - e.filledQty, price);
    CommissionMonotone(costs, e.filledAmount, i.qty * price);
  }

  lemma SellEntry(i: Intent, q: Quote, price: int)
    requires FairBook(q) && i.side.Sell? && i.qty >= 1 && price >= 0
    ensures EntryOk(EntryFor(i, q, price)) && HeldBack(EntryFor(i, q, price)) == 0
  {
    SweepTakes(q.bids, i, i.qty);
    SweepAmount(q.bids, i, i.qty);
  }

  lemma {:induction false} SweepAmount(levels: seq<Level>, i: Intent, qty: int)
    requires qty >= 0 && forall k :: 0 <= k < |levels| ==> levels[k].0 >= 0 && levels[k].1 >= 0
    ensures Sweep(levels, i, qty).1 >= 0 && (Sweep(levels, i, qty).0 == 0 ==> Sweep(levels, i, qty).1 == 0)
  {
    if levels != [] && InReach(i, levels[0].0) {
      var take := Least(qty, levels[0].1);
      MulNonNegative(take, levels[0].0);
      if qty != take {
        SweepTakes(levels[1..], i, qty - take);
        SweepAmount(levels[1..], i, qty - take);
      }
    }
  }

  /** What booking the whole fill of an entry will cost. */
  function FillCost(costs: CostModel, e: Entry): int {
    if e.intent.side.Buy? && e.filledQty > 0 then e.filledAmount + costs.Commission(e.filledAmount) else 0
  }

  /** Orders submitted before keep their rows. */
  lemma OlderUnmoved(costs: CostModel, name: nat -> string, o: Order, book: seq<Entry>, e: Entry)
    requires Naming(name) && Standing(name, o, book) && Fits(o, Statuses(name, book))
    ensures Standing(name, o, book + [e]) && Fits(o, Statuses(name, book + [e]))
    ensures Owed(costs, o, Statuses(name, book + [e])) == Owed(costs, o, Statuses(name, book))
  {
    if o.ref.no.Some? {
      var j :| 0 <= j < |book| && o.ref.no.value == name(j + 1) && book[j].intent == o.intent;
      assert (book + [e])[j] == book[j];
      NewRow(name, book, e, o.ref.no.value);
    }
  }

  /** The new order owes exactly its fill. */
  lemma NewestOwes(costs: CostModel, name: nat -> string, o: Order, book: seq<Entry>, e: Entry)
    requires Naming(name) && EntryOk(e) && o.intent == e.intent && o.status.Accepted?
    requires o.ref.no == Some(name(|book| + 1)) && o.filledQty == 0 && o.filledAmount == 0
    ensures Standing(name, o, book + [e]) && Fits(o, Statuses(name, book + [e]))
    ensures Owed(costs, o, Statuses(name, book + [e]))
            == FillCost(costs, e)
  {
    RowAt(name, book + [e], |book|);
    assert (book + [e])[|book|] == e;
  }

  lemma AcceptedTotals(costs: CostModel, limits: Risk.Limits, name: nat -> string, p: Paper, i: Intent, q: Quote, w: Surroundings)
    requires Naming(name) && Neat(name, p) && PaperGate(costs, limits, p, i, q, w).None?
    requires Risk.ReferencePrice(i, q).Success? && EntryOk(EntryFor(i, q, Risk.ReferencePrice(i, q).value))
    ensures var next := PaperSubmit(costs, limits, name, p, i, q, w);
            var e := EntryFor(i, q, Risk.ReferencePrice(i, q).value);
            && Orderly(next.s, Statuses(name, next.book)) && Linked(name, next.s.orders, next.book)
            && OwedTo(costs, next.s.orders, Statuses(name, next.book), next.s.seqNo)
               == OwedTo(costs, p.s.orders, Statuses(name, p.book), p.s.seqNo)
                  + FillCost(costs, e)
            && Reserved(next.book) == Reserved(p.book) + HeldBack(e)
            && next.s.ledger == p.s.ledger
  {
    var next := PaperSubmit(costs, limits, name, p, i, q, w);
    var e, id := EntryFor(i, q, Risk.ReferencePrice(i, q).value), p.s.seqNo + 1;
    AcceptedOrder(costs, limits, name, p, i, q, w);
    forall k | k in p.s.orders
      ensures Standing(name, p.s.orders[k], next.book) && Fits(p.s.orders[k], Statuses(name, next.book))
      ensures Owed(costs, p.s.orders[k], Statuses(name, next.book)) == Owed(costs, p.s.orders[k], Statuses(name, p.book))
    {
      OlderUnmoved(costs, name, p.s.orders[k], p.book, e);
    }
    NewestOwes(costs, name, next.s.orders[id], p.book, e);
    OwedAgree(costs, p.s.orders, next.s.orders, Statuses(name, p.book), Statuses(name, next.book), p.s.seqNo);
    assert next.book[..|next.book| - 1] == p.book;
  }

  lemma AcceptedEntry(costs: CostModel, limits: Risk.Limits, p: Paper, i: Intent, q: Quote, w: Surroundings)
    requires SoundCosts(costs) && FairBook(q) && PaperGate(costs, limits, p, i, q, w).None?
    ensures Risk.ReferencePrice(i, q).Success?
    ensures var e := EntryFor(i, q, Risk.ReferencePrice(i, q).value);
            && EntryOk(e)
            && HeldBack(e) + FillCost(costs, e) <= if i.side.Buy? then OrderableCash(p) else 0
  {
    GateCovers(costs, limits, p, i, q, w);
    var price := Risk.ReferencePrice(i, q).value;
    if i.side.Buy? {
      BuyCosts(costs, i, q, price);
      CommissionNonNegative(costs, EntryFor(i, q, price).filledAmount);
    } else {
      SellEntry(i, q, price);
    }
  }

  lemma AcceptedNeat(costs: CostModel, limits: Risk.Limits, name: nat -> string, p: Paper, i: Intent, q: Quote, w: Surroundings)
    requires SoundCosts(costs) && Naming(name) && FairBook(q)
    requires Neat(name, p) && PaperGate(costs, limits, p, i, q, w).None?
    ensures Neat(name, PaperSubmit(costs, limits, name, p, i, q, w))
  {
    AcceptedOrder(costs, limits, name, p, i, q, w);
    AcceptedEntry(costs, limits, p, i, q, w);
    AcceptedTotals(costs, limits, name, p, i, q, w);
  }

  lemma AcceptedSafe(costs: CostModel, limits: Risk.Limits, name: nat -> string, p: Paper, i: Intent, q: Quote, w: Surroundings)
    requires SoundCosts(costs) && Naming(name) && FairBook(q) && p.synced
    requires Safe(costs, name, p) && PaperGate(costs, limits, p, i, q, w).None?
    ensures Safe(costs, name, PaperSubmit(costs, limits, name, p, i, q, w))
  {
    AcceptedEntry(costs, limits, p, i, q, w);
    AcceptedTotals(costs, limits, name, p, i, q, w);
  }

  /** A submit keeps what rules out errors in later reconciles. */
  lemma SubmitSteady(
    costs: CostModel, start: Balance, limits: Risk.Limits, name: nat -> string, p: Paper, i: Intent, q: Quote, w: Surroundings)
    requires SoundCosts(costs) && Naming(name) && Steady(start, p.s) && Linked(name, p.s.orders, p.book)
    ensures Steady(start, PaperSubmit(costs, limits, name, p, i, q, w).s)
  {
    var id := p.s.seqNo + 1;
    var at := w.(orderableCash := OrderableCash(p));
    if PaperGate(costs, limits, p, i, q, w).Some? {
      ActionSteady(costs, start, p.s, GateReject(i, w.createdAt, PaperGate(costs, limits, p, i, q, w).value));
    } else {
      GateAdmits(costs, limits, p.s, false, i, q, at);
      var ref := BrokerRef(Some(name(|p.book| + 1)), Some("PAPER"), None);
      var placed := Next(costs, p.s, Place(i, w.createdAt, w.ts, w.sentAt));
      NameIsFresh(name, p.s.orders, p.book, placed.orders, id, ref);
      SendSteady(costs, start, p.s, Place(i, w.createdAt, w.ts, w.sentAt), ref);
    }
  }

  /** Placing an order, noting the send and taking an acceptance. */
  lemma SendSteady(costs: CostModel, start: Balance, s: Session, place: Action, ref: BrokerRef)
    requires SoundCosts(costs) && Steady(start, s) && place.Place? && Enabled(s, place)
    requires FreshRef(Next(costs, s, place).orders, ref)
    ensures var noted := Next(costs, Next(costs, s, place), Note(LiveSend, s.seqNo + 1));
            Steady(start, Next(costs, noted, Answer(s.seqNo + 1, Outcome(OutcomeAccepted, ref))))
  {
    var id := s.seqNo + 1;
    var placed := Next(costs, s, place);
    ActionPositions(costs, start, s, place);
    var noted := Next(costs, placed, Note(LiveSend, id));
    ActionPositions(costs, start, placed, Note(LiveSend, id));
    ActionPositions(costs, start, noted, Answer(id, Outcome(OutcomeAccepted, ref)));
  }

  lemma ActionPositions(costs: CostModel, start: Balance, s: Session, a: Action)
    requires SoundCosts(costs) && Shape(s) && Positions(s.orders, s.ledger, start, s.seqNo) && Enabled(s, a)
    ensures var t := Next(costs, s, a); Shape(t) && Positions(t.orders, t.ledger, start, t.seqNo)
  {
    ShapeKept(costs, s, a);
    PositionsKept(costs, start, s, a);
  }

  lemma ActionSteady(costs: CostModel, start: Balance, s: Session, a: Action)
    requires SoundCosts(costs) && Steady(start, s) && Enabled(s, a) && NoPending(Next(costs, s, a).orders)
    ensures Steady(start, Next(costs, s, a))
  {
    ActionPositions(costs, start, s, a);
  }

  lemma NameIsFresh(name: nat -> string, orders: Orders, book: seq<Entry>, more: Orders, id: nat, ref: BrokerRef)
    requires Naming(name) && Linked(name, orders, book) && ref.no == Some(name(|book| + 1))
    requires id in more && !more[id].Numbered() && forall k :: k in more && k != id ==> k in orders && more[k] == orders[k]
    ensures FreshRef(more, ref)
  {
    forall k | k in more && more[k].Numbered()
      ensures more[k].ref.no.value != name(|book| + 1)
    {
      assert Standing(name, orders[k], book);
    }
  }

  // ---------------------------------------------------------------- every disciplined run

  /** Every quote is fair, and between two submits there is a reconcile. */
  predicate Disciplined(events: seq<PaperEvent>) {
    && (forall j :: 0 <= j < |events| && events[j].Submit? ==> FairBook(events[j].q))
    && (forall i, j :: 0 <= i < j < |events| && events[i].Submit? && events[j].Submit? ==> ReconciledBetween(events, i, j))
  }

  predicate ReconciledBetween(events: seq<PaperEvent>, i: int, j: int) {
    exists k :: i < k < j && 0 <= k < |events| && events[k].DoReconcile?
  }

  lemma NextSafe(costs: CostModel, start: Balance, limits: Risk.Limits, name: nat -> string, p: Paper, e: PaperEvent)
    requires SoundCosts(costs) && SellCostsBounded(costs) && Naming(name) && Safe(costs, name, p) && Steady(start, p.s)
    requires e.Submit? ==> FairBook(e.q) && p.synced
    ensures Safe(costs, name, PaperNext(costs, limits, name, p, e)) && Steady(start, PaperNext(costs, limits, name, p, e).s)
  {
    match e
    case Submit(i, q, w) =>
      SubmitSteady(costs, start, limits, name, p, i, q, w);
      if PaperGate(costs, limits, p, i, q, w).Some? {
        RejectedSafe(costs, limits, name, p, i, q, w);
      } else {
        AcceptedSafe(costs, limits, name, p, i, q, w);
      }
    case DoReconcile => ReconcileSafe(costs, start, limits, name, p);
    case DoCancel(k) => CancelSafe(costs, limits, name, p, k);
  }

  lemma NextSynced(costs: CostModel, limits: Risk.Limits, name: nat -> string, p: Paper, e: PaperEvent)
    ensures !PaperNext(costs, limits, name, p, e).synced ==> !e.DoReconcile? && (p.synced ==> e.Submit?)
  {
  }

  /** Flags that only a submit lowers and every reconcile raises: a low flag has a submit before it and no reconcile
      since. */
  lemma {:induction false} LastSubmit(events: seq<PaperEvent>, synced: nat -> bool, n: nat) returns (i: nat)
    requires n <= |events| && synced(0) && !synced(n)
    requires forall k: nat :: k < n && !synced(k + 1) ==> !events[k].DoReconcile? && (events[k].Submit? || !synced(k))
    ensures i < n && events[i].Submit? && !ReconciledBetween(events, i, n)
  {
    assert !synced(n - 1 + 1);
    if synced(n - 1) {
      i := n - 1;
    } else {
      i := LastSubmit(events, synced, n - 1);
    }
  }

  lemma RunSynced(costs: CostModel, limits: Risk.Limits, name: nat -> string, p: Paper, events: seq<PaperEvent>, n: nat)
    requires 0 < n <= |events| && !PaperRun(costs, limits, name, p, events[..n]).synced
    ensures !events[n - 1].DoReconcile?
    ensures events[n - 1].Submit? || !PaperRun(costs, limits, name, p, events[..n - 1]).synced
  {
    assert events[..n][..n - 1] == events[..n - 1];
    NextSynced(costs, limits, name, PaperRun(costs, limits, name, p, events[..n - 1]), events[n - 1]);
  }

  lemma SyncedAtSubmit(costs: CostModel, limits: Risk.Limits, name: nat -> string, p: Paper, events: seq<PaperEvent>)
    requires p.synced && events != [] && Disciplined(events) && events[|events| - 1].Submit?
    ensures PaperRun(costs, limits, name, p, events[..|events| - 1]).synced
  {
    var n := |events| - 1;
    if !PaperRun(costs, limits, name, p, events[..n]).synced {
      var synced := (k: nat) => if k <= n then PaperRun(costs, limits, name, p, events[..k]).synced else true;
      forall k: nat | k < n && !synced(k + 1)
        ensures !events[k].DoReconcile? && (events[k].Submit? || !synced(k))
      {
        RunSynced(costs, limits, name, p, events, k + 1);
      }
      var i := LastSubmit(events, synced, n);
    }
  }

  lemma DisciplinedPrefix(events: seq<PaperEvent>)
    requires events != [] && Disciplined(events)
    ensures Disciplined(events[..|events| - 1])
  {
    var init := events[..|events| - 1];
    forall i, j | 0 <= i < j < |init| && init[i].Submit? && init[j].Submit?
      ensures ReconciledBetween(init, i, j)
    {
      assert ReconciledBetween(events, i, j);
      var k :| i < k < j && 0 <= k < |events| && events[k].DoReconcile?;
      assert init[k].DoReconcile?;
    }
  }

  /** A paper session begins without orders. */
  function Opening(ledger: Balance, seqNo: nat, times: seq<int>, journal: seq<Record>): Paper {
    Paper(Session(map[], ledger, seqNo, times, journal), [], true)
  }

  lemma {:induction false} NoOrdersNothingOwed(costs: CostModel, n: nat, rows: seq<Row>)
    ensures OwedTo(costs, map[], rows, n) == 0
  {
    if n > 0 {
      NoOrdersNothingOwed(costs, n - 1, rows);
    }
  }

  lemma {:induction false} NoOrdersNoSum(w: Order -> int, n: nat)
    ensures Sum(map[], w, n) == 0
  {
    if n > 0 {
      NoOrdersNoSum(w, n - 1);
    }
  }

  lemma OpeningSteady(ledger: Balance, seqNo: nat, times: seq<int>, journal: seq<Record>)
    requires Sound(ledger)
    ensures Steady(ledger, Opening(ledger, seqNo, times, journal).s)
  {
    forall symbol: string
      ensures Covered(map[], ledger, seqNo, symbol) && Accounted(map[], ledger, ledger, seqNo, symbol)
    {
      NoOrdersNoSum(OpenOf(Sell, symbol), seqNo);
      NoOrdersNoSum(NetFillOf(symbol), seqNo);
    }
  }

  lemma {:induction false} RunSafe(
    costs: CostModel, start: Balance, limits: Risk.Limits, name: nat -> string, p: Paper, events: seq<PaperEvent>)
    requires SoundCosts(costs) && SellCostsBounded(costs) && Naming(name) && Safe(costs, name, p) && Steady(start, p.s)
    requires p.synced && Disciplined(events)
    ensures Safe(costs, name, PaperRun(costs, limits, name, p, events))
    ensures Steady(start, PaperRun(costs, limits, name, p, events).s)
  {
    if events != [] {
      var init := events[..|events| - 1];
      DisciplinedPrefix(events);
      RunSafe(costs, start, limits, name, p, init);
      if events[|events| - 1].Submit? {
        SyncedAtSubmit(costs, limits, name, p, events);
      }
      NextSafe(costs, start, limits, name, PaperRun(costs, limits, name, p, init), events[|events| - 1]);
    }
  }

  /** Whoever reconciles after each submit before the next, and whatever else they do: cash covers what is held back for
      open buys, together with every fill not booked yet, and no reconcile raises. */
  lemma PaperStaysSolvent(
    costs: CostModel, limits: Risk.Limits, name: nat -> string, ledger: Balance, seqNo: nat, times: seq<int>,
    journal: seq<Record>, events: seq<PaperEvent>)
    requires SoundCosts(costs) && SellCostsBounded(costs) && Naming(name) && Sound(ledger) && ledger.cash >= 0
    requires Disciplined(events)
    ensures var p := PaperRun(costs, limits, name, Opening(ledger, seqNo, times, journal), events);
            && OrderableCash(p) >= OwedTo(costs, p.s.orders, Statuses(name, p.book), p.s.seqNo) >= 0
            && Reconcile(costs, p.s, Statuses(name, p.book)).1.None?
  {
    var p0 := Opening(ledger, seqNo, times, journal);
    NoOrdersNothingOwed(costs, seqNo, Statuses(name, []));
    OpeningSteady(ledger, seqNo, times, journal);
    RunSafe(costs, ledger, limits, name, p0, events);
    var p := PaperRun(costs, limits, name, p0, events);
    OwedToNonNegative(costs, p.s.orders, Statuses(name, p.book), p.s.seqNo);
    NamesGood(name, p.book);
    ReconcileQuiet(costs, ledger, p.s, Statuses(name, p.book));
  }

  // ---------------------------------------------------------------- without the discipline

  /** The filled part of an order is neither deducted nor held back until it is booked: only the open part lowers what
      the gate calls orderable. */
  lemma FillNotHeldBack(costs: CostModel, limits: Risk.Limits, name: nat -> string, p: Paper, i: Intent, q: Quote, w: Surroundings)
    requires PaperGate(costs, limits, p, i, q, w).None?
    ensures Risk.ReferencePrice(i, q).Success?
    ensures OrderableCash(PaperSubmit(costs, limits, name, p, i, q, w))
            == OrderableCash(p) - HeldBack(EntryFor(i, q, Risk.ReferencePrice(i, q).value))
  {
    AcceptedOrder(costs, limits, name, p, i, q, w);
    var next := PaperSubmit(costs, limits, name, p, i, q, w);
    assert next.book[..|next.book| - 1] == p.book;
  }

  predicate FairQuotes(events: seq<PaperEvent>) {
    forall j :: 0 <= j < |events| && events[j].Submit? ==> FairBook(events[j].q)
  }

  lemma NextNeat(costs: CostModel, start: Balance, limits: Risk.Limits, name: nat -> string, p: Paper, e: PaperEvent)
    requires SoundCosts(costs) && SellCostsBounded(costs) && Naming(name) && Neat(name, p) && Steady(start, p.s)
    requires e.Submit? ==> FairBook(e.q)
    ensures Neat(name, PaperNext(costs, limits, name, p, e)) && Steady(start, PaperNext(costs, limits, name, p, e).s)
  {
    match e
    case Submit(i, q, w) =>
      SubmitSteady(costs, start, limits, name, p, i, q, w);
      if PaperGate(costs, limits, p, i, q, w).Some? {
        RejectedNeat(costs, limits, name, p, i, q, w);
      } else {
        AcceptedNeat(costs, limits, name, p, i, q, w);
      }
    case DoReconcile => ReconcileNeat(costs, start, limits, name, p);
    case DoCancel(k) => CancelNeat(costs, limits, name, p, k);
  }

  /** Every run, whether anybody reconciles or not, keeps orders and book together. */
  lemma {:induction false} RunNeat(
    costs: CostModel, start: Balance, limits: Risk.Limits, name: nat -> string, p: Paper, events: seq<PaperEvent>)
    requires SoundCosts(costs) && SellCostsBounded(costs) && Naming(name) && Neat(name, p) && Steady(start, p.s) && FairQuotes(events)
    ensures Neat(name, PaperRun(costs, limits, name, p, events)) && Steady(start, PaperRun(costs, limits, name, p, events).s)
  {
    if events != [] {
      var init := events[..|events| - 1];
      RunNeat(costs, start, limits, name, p, init);
      NextNeat(costs, start, limits, name, PaperRun(costs, limits, name, p, init), events[|events| - 1]);
    }
  }

  /** EXACT CONDITION. At every moment of every paper session, a reconcile leaves cash short of what is held back if and
      only if the fills not booked yet, buys less sells, take out more than was orderable. */
  lemma OverspentExactly(
    costs: CostModel, limits: Risk.Limits, name: nat -> string, ledger: Balance, seqNo: nat, times: seq<int>,
    journal: seq<Record>, events: seq<PaperEvent>)
    requires SoundCosts(costs) && SellCostsBounded(costs) && Naming(name) && Sound(ledger) && FairQuotes(events)
    ensures var p := PaperRun(costs, limits, name, Opening(ledger, seqNo, times, journal), events);
            OrderableCash(PaperNext(costs, limits, name, p, DoReconcile)) < 0
            <==> NetTo(costs, p.s.orders, Statuses(name, p.book), p.s.seqNo) > OrderableCash(p)
  {
    var p0 := Opening(ledger, seqNo, times, journal);
    OpeningSteady(ledger, seqNo, times, journal);
    RunNeat(costs, ledger, limits, name, p0, events);
    OverspentAt(costs, ledger, limits, name, PaperRun(costs, limits, name, p0, events));
  }

  lemma OverspentAt(costs: CostModel, start: Balance, limits: Risk.Limits, name: nat -> string, p: Paper)
    requires SoundCosts(costs) && SellCostsBounded(costs) && Naming(name)
    requires Steady(start, p.s) && Orderly(p.s, Statuses(name, p.book))
    ensures OrderableCash(PaperNext(costs, limits, name, p, DoReconcile)) < 0
            <==> NetTo(costs, p.s.orders, Statuses(name, p.book), p.s.seqNo) > OrderableCash(p)
  {
    NamesGood(name, p.book);
    ReconcileQuiet(costs, start, p.s, Statuses(name, p.book));
    ReconcileNets(costs, p.s, Statuses(name, p.book));
  }

  const ONE_SHARE := Intent("A", Buy, 1, Limit, Some(100), "")

  const PLENTY := Quote("A", 100, 130, 70, 1, false, [(100, 10)], [])

  const NO_COSTS := CostModel(0.0, 0.0)

  const WIDE := Risk.Limits(1_000, 1_000, 10, 1_000, {})

  const STILL := Surroundings(false, 0, 0, 0, 0, 0)

  lemma {:induction false} CountBounded(times: seq<int>, since: int)
    ensures CountAfter(times, since) <= |times|
  {
    if times != [] {
      CountBounded(times[..|times| - 1], since);
    }
  }

  /** The gate's verdict on one share at 100 where nothing but cash could stand in its way. */
  lemma GateOpen(p: Paper)
    requires NoUnknown(p.s.orders) && |p.s.submitTimes| <= 1
    requires p.s.ledger.realized == 0 && p.s.ledger.positions == map[] && OrderableCash(p) >= 100
    requires Sum(p.s.orders, OpenOf(Buy, "A"), p.s.seqNo) <= 1
    ensures PaperGate(NO_COSTS, WIDE, p, ONE_SHARE, PLENTY, STILL).None?
  {
    var w := STILL.(orderableCash := OrderableCash(p));
    var ctx := GateContext(NO_COSTS, p.s, false, ONE_SHARE, 100, w);
    assert ctx.estCommission == 0;
    CountBounded(p.s.submitTimes, w.now - 60);
    assert ctx.positionQty == 0 && ctx.openBuyQty <= 1;
    assert (ctx.positionQty + ctx.openBuyQty + 1) * 100 <= 200;
    assert Risk.TickOf(100) == 1 && Risk.TickAligned(100);
  }

  lemma OneShareFills(p: Paper, name: nat -> string)
    requires Naming(name) && Safe(NO_COSTS, name, p) && PaperGate(NO_COSTS, WIDE, p, ONE_SHARE, PLENTY, STILL).None?
    ensures var next := PaperSubmit(NO_COSTS, WIDE, name, p, ONE_SHARE, PLENTY, STILL);
            && OwedTo(NO_COSTS, next.s.orders, Statuses(name, next.book), next.s.seqNo)
               == OwedTo(NO_COSTS, p.s.orders, Statuses(name, p.book), p.s.seqNo) + 100
            && OrderableCash(next) == OrderableCash(p)
  {
    assert Sweep(PLENTY.asks, ONE_SHARE, 1) == (1, 100);
    assert NO_COSTS.Commission(100) == 0;
    AcceptedTotals(NO_COSTS, WIDE, name, p, ONE_SHARE, PLENTY, STILL);
  }

  const FLUSH := Opening(Balance(150, 0, map[]), 0, [], [])

  lemma FlushIsSafe(name: nat -> string)
    ensures Safe(NO_COSTS, name, FLUSH) && PaperGate(NO_COSTS, WIDE, FLUSH, ONE_SHARE, PLENTY, STILL).None?
  {
    NoOrdersNothingOwed(NO_COSTS, 0, Statuses(name, []));
    GateOpen(FLUSH);
  }

  /** After the first order fills the gate is as open as before. */
  lemma GateStaysOpen(name: nat -> string)
    requires PaperGate(NO_COSTS, WIDE, FLUSH, ONE_SHARE, PLENTY, STILL).None?
    requires OrderableCash(PaperSubmit(NO_COSTS, WIDE, name, FLUSH, ONE_SHARE, PLENTY, STILL)) == 150
    ensures PaperGate(NO_COSTS, WIDE, PaperSubmit(NO_COSTS, WIDE, name, FLUSH, ONE_SHARE, PLENTY, STILL), ONE_SHARE, PLENTY, STILL).None?
  {
    var next := PaperSubmit(NO_COSTS, WIDE, name, FLUSH, ONE_SHARE, PLENTY, STILL);
    AcceptedOrder(NO_COSTS, WIDE, name, FLUSH, ONE_SHARE, PLENTY, STILL);
    assert Sum(next.s.orders, OpenOf(Buy, "A"), 1) == Sum(next.s.orders, OpenOf(Buy, "A"), 0) + 1;
    GateOpen(next);
  }

  function Once(name: nat -> string): Paper { PaperSubmit(NO_COSTS, WIDE, name, FLUSH, ONE_SHARE, PLENTY, STILL) }

  function Twice(name: nat -> string): Paper { PaperSubmit(NO_COSTS, WIDE, name, Once(name), ONE_SHARE, PLENTY, STILL) }

  /** Two fully filled buys without a reconcile between them pass the gate on cash for one. */
  lemma TwoFillsPass(name: nat -> string)
    requires Naming(name)
    ensures PaperGate(NO_COSTS, WIDE, FLUSH, ONE_SHARE, PLENTY, STILL).None?
    ensures PaperGate(NO_COSTS, WIDE, Once(name), ONE_SHARE, PLENTY, STILL).None?
    ensures Safe(NO_COSTS, name, Once(name)) && OrderableCash(Twice(name)) == 150
    ensures OwedTo(NO_COSTS, Twice(name).s.orders, Statuses(name, Twice(name).book), Twice(name).s.seqNo) == 200
  {
    FlushIsSafe(name);
    NoOrdersNothingOwed(NO_COSTS, 0, Statuses(name, []));
    OneShareFills(FLUSH, name);
    AcceptedSafe(NO_COSTS, WIDE, name, FLUSH, ONE_SHARE, PLENTY, STILL);
    GateStaysOpen(name);
    OneShareFills(Once(name), name);
  }

  lemma {:induction false} OnlyBuysNet(costs: CostModel, orders: Orders, rows: seq<Row>, n: nat)
    requires forall id :: id in orders ==> orders[id].intent.side.Buy?
    ensures NetTo(costs, orders, rows, n) == OwedTo(costs, orders, rows, n)
  {
    if n > 0 {
      OnlyBuysNet(costs, orders, rows, n - 1);
    }
  }

  lemma TwiceIsSteady(name: nat -> string)
    requires Naming(name)
    requires Linked(name, Once(name).s.orders, Once(name).book)
    ensures Steady(FLUSH.s.ledger, Twice(name).s)
  {
    OpeningSteady(FLUSH.s.ledger, 0, [], []);
    SubmitSteady(NO_COSTS, FLUSH.s.ledger, WIDE, name, FLUSH, ONE_SHARE, PLENTY, STILL);
    SubmitSteady(NO_COSTS, FLUSH.s.ledger, WIDE, name, Once(name), ONE_SHARE, PLENTY, STILL);
  }

  lemma TwiceIsOrderly(name: nat -> string)
    requires Naming(name) && Safe(NO_COSTS, name, Once(name))
    requires PaperGate(NO_COSTS, WIDE, Once(name), ONE_SHARE, PLENTY, STILL).None?
    ensures Orderly(Twice(name).s, Statuses(name, Twice(name).book))
  {
    AcceptedNeat(NO_COSTS, WIDE, name, Once(name), ONE_SHARE, PLENTY, STILL);
  }

  lemma TwiceIsBuys(name: nat -> string)
    requires PaperGate(NO_COSTS, WIDE, FLUSH, ONE_SHARE, PLENTY, STILL).None?
    requires PaperGate(NO_COSTS, WIDE, Once(name), ONE_SHARE, PLENTY, STILL).None?
    ensures forall id :: id in Twice(name).s.orders ==> Twice(name).s.orders[id].intent.side.Buy?
  {
    AcceptedOrder(NO_COSTS, WIDE, name, FLUSH, ONE_SHARE, PLENTY, STILL);
    AcceptedOrder(NO_COSTS, WIDE, name, Once(name), ONE_SHARE, PLENTY, STILL);
  }

  /** The session in which 150 in cash pays for 100 twice: the reconcile after the two submits leaves cash below what is
      held back. */
  lemma SpentTwice(name: nat -> string)
    requires Naming(name)
    ensures PaperGate(NO_COSTS, WIDE, FLUSH, ONE_SHARE, PLENTY, STILL).None?
    ensures PaperGate(NO_COSTS, WIDE, Once(name), ONE_SHARE, PLENTY, STILL).None?
    ensures OrderableCash(PaperNext(NO_COSTS, WIDE, name, Twice(name), DoReconcile)) < 0
  {
    TwoFillsPass(name);
    TwiceIsSteady(name);
    TwiceIsOrderly(name);
    TwiceIsBuys(name);
    OnlyBuysNet(NO_COSTS, Twice(name).s.orders, Statuses(name, Twice(name).book), Twice(name).s.seqNo);
    OverspentAt(NO_COSTS, FLUSH.s.ledger, WIDE, name, Twice(name));
  }
}
