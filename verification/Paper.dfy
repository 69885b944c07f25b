/** The paper gateway: orders are filled against the quoted book when they are submitted, and cash is held back for
    what stays open. */
module PaperTrading {
  import opened Contracts
  import opened Arith
  import opened Accounting
  import Risk

  // ---------------------------------------------------------------- the book sweep

  type Level = (int, int)

  /** The order may trade at this price. */
  predicate InReach(i: Intent, price: int) {
    i.orderType.Limit? && i.limitPrice.Some? ==>
      if i.side.Buy? then price <= i.limitPrice.value else price >= i.limitPrice.value
  }

  function Least(a: int, b: int): int { if a <= b then a else b }

  /** Quantity and amount taken from the levels, best first, until the quantity or the limit is reached. */
  function Sweep(levels: seq<Level>, i: Intent, qty: int): (int, int) {
    if levels == [] || !InReach(i, levels[0].0) then (0, 0)
    else
      var take := Least(qty, levels[0].1);
      if qty == take then (take, take * levels[0].0)
      else
        var rest := Sweep(levels[1..], i, qty - take);
        (take + rest.0, take * levels[0].0 + rest.1)
  }

  function Levels(i: Intent, q: Quote): seq<Level> { if i.side.Buy? then q.asks else q.bids }

  /** Sizes are not negative and prices lie between nothing and the day's upper limit. */
  predicate FairBook(q: Quote) {
    && q.upperLimit >= 0 && q.last >= 0
    && (forall k :: 0 <= k < |q.asks| ==> 0 <= q.asks[k].0 <= q.upperLimit && q.asks[k].1 >= 0)
    && (forall k :: 0 <= k < |q.bids| ==> 0 <= q.bids[k].0 && q.bids[k].1 >= 0)
  }

  /** What is on offer within reach, best first, up to the first price out of reach. */
  function OnOffer(levels: seq<Level>, i: Intent): int {
    if levels == [] || !InReach(i, levels[0].0) then 0 else levels[0].1 + OnOffer(levels[1..], i)
  }

  /** A sweep takes as much as is on offer and never more than was ordered. */
  lemma {:induction false} SweepTakes(levels: seq<Level>, i: Intent, qty: int)
    requires qty >= 0 && forall k :: 0 <= k < |levels| ==> levels[k].1 >= 0
    ensures OnOffer(levels, i) >= 0 && Sweep(levels, i, qty).0 == Least(qty, OnOffer(levels, i))
  {
    if levels != [] && InReach(i, levels[0].0) {
      SweepTakes(levels[1..], i, if qty >= levels[0].1 then qty - levels[0].1 else 0);
    }
  }

  /** It pays no more than the bound for each share, if every price within reach is within the bound. */
  lemma {:induction false} SweepPays(levels: seq<Level>, i: Intent, qty: int, bound: int)
    requires qty >= 0
    requires forall k :: 0 <= k < |levels| ==> levels[k].0 >= 0 && levels[k].1 >= 0
    requires forall k :: 0 <= k < |levels| && InReach(i, levels[k].0) ==> levels[k].0 <= bound
    ensures 0 <= Sweep(levels, i, qty).1 <= Sweep(levels, i, qty).0 * bound
  {
    if levels != [] && InReach(i, levels[0].0) {
      var take, price := Least(qty, levels[0].1), levels[0].0;
      MulNonNegative(take, price);
      MulMonotone(price, bound, take);
      if qty != take {
        var rest := Sweep(levels[1..], i, qty - take);
        SweepPays(levels[1..], i, qty - take, bound);
        DistributeSum(take, rest.0, bound);
      }
    }
  }

  // ---------------------------------------------------------------- level by level

  /** The price is one a limit order accepts: no higher than its limit for a buy, no lower for a sell. */
  predicate WithinLimit(i: Intent, price: int) {
    match (i.orderType, i.limitPrice, i.side)
    case (Limit, Some(limit), Buy) => price <= limit
    case (Limit, Some(limit), Sell) => limit <= price
    case _ => true
  }

  function SizeBefore(levels: seq<Level>, k: nat): int
    requires k <= |levels|
  {
    if k == 0 then 0 else SizeBefore(levels, k - 1) + levels[k - 1].1
  }

  /** What an order takes from the k-th level: nothing beyond the first price it does not accept, else what the better
      levels have left of its quantity, up to the level's size. */
  ghost function TakenAt(levels: seq<Level>, i: Intent, qty: int, k: nat): int
    requires k < |levels|
  {
    var left := qty - SizeBefore(levels, k);
    if (exists j :: 0 <= j <= k && !WithinLimit(i, levels[j].0)) || left <= 0 then 0
    else if left <= levels[k].1 then left else levels[k].1
  }

  /** Quantity and amount taken from the first n levels. */
  ghost function TakenTo(levels: seq<Level>, i: Intent, qty: int, n: nat): (int, int)
    requires n <= |levels|
  {
    if n == 0 then (0, 0)
    else
      var before, take := TakenTo(levels, i, qty, n - 1), TakenAt(levels, i, qty, n - 1);
      (before.0 + take, before.1 + take * levels[n - 1].0)
  }

  lemma ReachIsLimit(i: Intent, price: int)
    ensures InReach(i, price) <==> WithinLimit(i, price)
  {
  }

  lemma {:induction false} SizeShifts(levels: seq<Level>, k: nat)
    requires 0 < k <= |levels|
    ensures SizeBefore(levels, k) == levels[0].1 + SizeBefore(levels[1..], k - 1)
  {
    if k > 1 {
      SizeShifts(levels, k - 1);
    }
  }

  /** Behind the first level the order goes on with what is left. */
  lemma TakenShifts(levels: seq<Level>, i: Intent, qty: int, k: nat)
    requires 0 < k < |levels| && levels[0].1 >= 0 && WithinLimit(i, levels[0].0) && qty >= 0
    requires forall j :: 0 <= j < |levels| ==> levels[j].1 >= 0
    ensures TakenAt(levels, i, qty, k) == TakenAt(levels[1..], i, qty - Least(qty, levels[0].1), k - 1)
  {
    SizeShifts(levels, k);
    SizeNonNegative(levels[1..], k - 1);
    var rest := levels[1..];
    assert forall j :: 0 < j < |levels| ==> levels[j] == rest[j - 1];
    if exists j :: 0 <= j <= k && !WithinLimit(i, levels[j].0) {
      var j :| 0 <= j <= k && !WithinLimit(i, levels[j].0);
      assert !WithinLimit(i, rest[j - 1].0);
    }
    if exists j :: 0 <= j <= k - 1 && !WithinLimit(i, rest[j].0) {
      var j :| 0 <= j <= k - 1 && !WithinLimit(i, rest[j].0);
      assert !WithinLimit(i, levels[j + 1].0);
    }
  }

  lemma {:induction false} SizeNonNegative(levels: seq<Level>, k: nat)
    requires k <= |levels| && forall j :: 0 <= j < |levels| ==> levels[j].1 >= 0
    ensures SizeBefore(levels, k) >= 0
  {
    if k > 0 {
      SizeNonNegative(levels, k - 1);
    }
  }

  lemma {:induction false} TotalsShift(levels: seq<Level>, i: Intent, qty: int, n: nat)
    requires 0 < n <= |levels| && WithinLimit(i, levels[0].0) && qty >= 0 && forall j :: 0 <= j < |levels| ==> levels[j].1 >= 0
    ensures var take := Least(qty, levels[0].1);
            var rest := TakenTo(levels[1..], i, qty - take, n - 1);
            TakenTo(levels, i, qty, n) == (take + rest.0, take * levels[0].0 + rest.1)
  {
    if n == 1 {
      assert TakenTo(levels, i, qty, 0) == (0, 0);
      assert TakenAt(levels, i, qty, 0) == Least(qty, levels[0].1);
    } else {
      TotalsShift(levels, i, qty, n - 1);
      TakenShifts(levels, i, qty, n - 1);
    }
  }

  lemma {:induction false} NothingTaken(levels: seq<Level>, i: Intent, qty: int, n: nat)
    requires n <= |levels| && forall j :: 0 <= j < |levels| ==> levels[j].1 >= 0
    requires qty <= 0 || (levels != [] && !WithinLimit(i, levels[0].0))
    ensures TakenTo(levels, i, qty, n) == (0, 0)
  {
    if n > 0 {
      NothingTaken(levels, i, qty, n - 1);
      SizeNonNegative(levels, n - 1);
      assert TakenAt(levels, i, qty, n - 1) == 0;
    }
  }

  /** THE SWEEP. Level by level, best first: an order takes from each level what the better ones have left of it, pays that
      level's price for it, and stops at the first price beyond its limit. */
  lemma {:induction false} SweepByLevels(levels: seq<Level>, i: Intent, qty: int)
    requires qty >= 0 && forall j :: 0 <= j < |levels| ==> levels[j].1 >= 0
    ensures Sweep(levels, i, qty) == TakenTo(levels, i, qty, |levels|)
  {
    if levels != [] {
      ReachIsLimit(i, levels[0].0);
      if !InReach(i, levels[0].0) {
        NothingTaken(levels, i, qty, |levels|);
      } else {
        var take := Least(qty, levels[0].1);
        TotalsShift(levels, i, qty, |levels|);
        SweepByLevels(levels[1..], i, qty - take);
        if qty == take {
          NothingTaken(levels[1..], i, 0, |levels| - 1);
        }
      }
    }
  }

  method SimulatePaperFills(i: Intent, q: Quote) returns (filled: int, amount: int)
    ensures (filled, amount) == Sweep(Levels(i, q), i, i.qty)
    ensures i.qty >= 0 && (forall k :: 0 <= k < |q.asks| ==> q.asks[k].1 >= 0) && (forall k :: 0 <= k < |q.bids| ==> q.bids[k].1 >= 0) ==>
              (filled, amount) == match i.side case Buy => TakenTo(q.asks, i, i.qty, |q.asks|) case Sell => TakenTo(q.bids, i, i.qty, |q.bids|)
  {
    if i.qty >= 0 && (forall k :: 0 <= k < |q.asks| ==> q.asks[k].1 >= 0) && (forall k :: 0 <= k < |q.bids| ==> q.bids[k].1 >= 0) {
      SweepByLevels(Levels(i, q), i, i.qty);
    }
    var levels := Levels(i, q);
    filled, amount := 0, 0;
    var remaining := i.qty;
    var k := 0;
    while k < |levels|
      invariant 0 <= k <= |levels|
      invariant Sweep(levels, i, i.qty)
                == (filled + Sweep(levels[k..], i, remaining).0, amount + Sweep(levels[k..], i, remaining).1)
    {
      assert levels[k..][1..] == levels[k + 1..];
      if !InReach(i, levels[k].0) {
        break;
      }
      var take := Least(remaining, levels[k].1);
      filled := filled + take;
      amount := amount + take * levels[k].0;
      remaining := remaining - take;
      k := k + 1;
      if remaining == 0 {
        return;
      }
    }
  }

  // ---------------------------------------------------------------- the gateway

  datatype Entry = Entry(intent: Intent, filledQty: int, filledAmount: int, reservePrice: int, cancelled: bool)

  function HeldBack(e: Entry): int {
    if !e.cancelled && e.intent.side.Buy? then (e.intent.qty - e.filledQty) * e.reservePrice else 0
  }

  function Reserved(book: seq<Entry>): int {
    if book == [] then 0 else Reserved(book[..|book| - 1]) + HeldBack(book[|book| - 1])
  }

  function StatusRow(no: string, e: Entry): Row {
    Row(no, "", "PAPER", e.intent.symbol, e.intent.side, e.intent.qty,
        if e.intent.limitPrice.Some? then e.intent.limitPrice.value else 0, e.filledQty, e.filledAmount,
        if e.cancelled then 0 else e.intent.qty - e.filledQty, 0, e.cancelled, 0)
  }

  /** One row per order, in the order of submission; `name` renders sequence numbers. */
  function Statuses(name: nat -> string, book: seq<Entry>): seq<Row> {
    seq(|book|, k requires 0 <= k < |book| => StatusRow(name(k + 1), book[k]))
  }

  function EntryFor(i: Intent, q: Quote, price: int): Entry {
    var (filled, amount) := Sweep(Levels(i, q), i, i.qty);
    Entry(i, filled, amount, price, false)
  }

  /** The row shows the entry under its number: what was ordered and filled, whether it was cancelled, and that nothing
      remains then. */
  predicate Shows(row: Row, no: string, e: Entry) {
    && row.no == no && row.original == "" && row.org == "PAPER" && row.orderTime == 0 && row.symbol == e.intent.symbol && row.side == e.intent.side
    && row.orderedQty == e.intent.qty && row.filledQty == e.filledQty && row.filledAmount == e.filledAmount
    && (e.intent.limitPrice.Some? ==> row.price == e.intent.limitPrice.value) && (e.intent.limitPrice.None? ==> row.price == 0)
    && row.rejectedQty == 0 && (row.cancelled <==> e.cancelled)
    && row.filledQty + row.remainingQty == (if e.cancelled then e.filledQty else e.intent.qty)
  }

  /** What an entry holds back: the open part of a buy that was not cancelled, at its reserve price. */
  predicate Holds(e: Entry, amount: int) {
    && (e.cancelled || e.intent.side == Sell ==> amount == 0)
    && (!e.cancelled && e.intent.side == Buy ==> amount == e.intent.qty * e.reservePrice - e.filledQty * e.reservePrice)
  }

  function TotalOf(amounts: seq<int>): int {
    if amounts == [] then 0 else TotalOf(amounts[..|amounts| - 1]) + amounts[|amounts| - 1]
  }

  lemma {:induction false} ReservedByEntry(book: seq<Entry>) returns (held: seq<int>)
    ensures |held| == |book| && (forall k :: 0 <= k < |book| ==> Holds(book[k], held[k])) && Reserved(book) == TotalOf(held)
  {
    held := [];
    if book != [] {
      var e := book[|book| - 1];
      held := ReservedByEntry(book[..|book| - 1]);
      assert (e.intent.qty - e.filledQty) * e.reservePrice == e.intent.qty * e.reservePrice - e.filledQty * e.reservePrice;
      held := held + [HeldBack(e)];
      assert held[..|held| - 1] == held[..|book| - 1];
    }
  }

  class PaperGateway {
    const ledger: Ledger
    const name: nat -> string
    var book: seq<Entry>

    constructor (ledger: Ledger, name: nat -> string)
      ensures this.ledger == ledger && this.name == name && book == []
    {
      this.ledger, this.name, book := ledger, name, [];
    }

    /** Fills what the book allows at once and keeps the order; always accepted. */
    method Submit(i: Intent, q: Quote) returns (r: Result<BrokerRef, RejectCode>)
      modifies this`book
      ensures match Risk.ReferencePrice(i, q)
              case Failure(code) => r == Failure(code) && book == old(book)
              case Success(price) =>
                && r == Success(BrokerRef(Some(name(|old(book)| + 1)), Some("PAPER"), None))
                && book == old(book) + [EntryFor(i, q, price)]
    {
      var filled, amount := SimulatePaperFills(i, q);
      var price := Risk.ReferencePrice(i, q);
      if price.Failure? {
        return Failure(price.error);
      }
      book := book + [Entry(i, filled, amount, price.value, false)];
      r := Success(BrokerRef(Some(name(|book|)), Some("PAPER"), None));
    }

    /** Cancels the k-th order: an order not in the book raises, and a fully filled one is refused. */
    method Cancel(k: nat) returns (accepted: Result<bool, ExecError>)
      modifies this`book
      ensures k >= |old(book)| ==> accepted == Failure(NoSuchOrder) && book == old(book)
      ensures k < |old(book)| ==>
                && accepted == Success(old(book)[k].filledQty != old(book)[k].intent.qty)
                && book == if accepted.value then old(book)[k := old(book)[k].(cancelled := true)] else old(book)
    {
      if k >= |book| {
        return Failure(NoSuchOrder);
      }
      if book[k].filledQty == book[k].intent.qty {
        return Success(false);
      }
      book := book[k := book[k].(cancelled := true)];
      accepted := Success(true);
    }

    method FetchStatuses() returns (rows: seq<Row>)
      ensures rows == Statuses(name, book)
      ensures |rows| == |book| && forall k :: 0 <= k < |book| ==> Shows(rows[k], name(k + 1), book[k])
    {
      rows := [];
      for k := 0 to |book|
        invariant |rows| == k && forall j :: 0 <= j < k ==> rows[j] == StatusRow(name(j + 1), book[j])
      {
        rows := rows + [StatusRow(name(k + 1), book[k])];
      }
    }

    method OrderableCash() returns (cash: int)
      ensures cash == ledger.cash - Reserved(book)
      ensures exists held :: |held| == |book| && (forall k :: 0 <= k < |book| ==> Holds(book[k], held[k])) && cash == ledger.cash - TotalOf(held)
    {
      ghost var held := ReservedByEntry(book);
      var reserved := 0;
      for k := 0 to |book|
        invariant reserved == Reserved(book[..k])
      {
        assert book[..k + 1][..k] == book[..k];
        if !book[k].cancelled && book[k].intent.side.Buy? {
          reserved := reserved + (book[k].intent.qty - book[k].filledQty) * book[k].reservePrice;
        }
      }
      assert book[..|book|] == book;
      cash := ledger.cash - reserved;
    }
  }
}
