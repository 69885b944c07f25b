/** Position ledger: integer average-cost accounting (src/execution/ledger.py). */
module Accounting {
  import opened Contracts
  import opened Arith

  /** Basis-point costs; the products are exact and rounded down, as the integer amounts demand. */
  datatype CostModel = CostModel(commissionBps: real, sellTaxBps: real) {
    function Commission(amount: int): int { (amount as real * commissionBps / 10000.0).Floor }

    function SellTax(amount: int): int { (amount as real * sellTaxBps / 10000.0).Floor }
  }

  /** The fee is the whole number of won in so many hundredths of a percent of the amount. */
  predicate BasisPoints(fee: int, amount: int, bps: real) {
    fee as real * 10000.0 <= amount as real * bps < (fee + 1) as real * 10000.0
  }

  /** Commission and tax are the rates of the cost model, rounded down to whole won. */
  lemma CostsAreBasisPoints(costs: CostModel, amount: int)
    ensures BasisPoints(costs.Commission(amount), amount, costs.commissionBps)
    ensures BasisPoints(costs.SellTax(amount), amount, costs.sellTaxBps)
  {
    FloorBrackets(amount as real * costs.commissionBps);
    FloorBrackets(amount as real * costs.sellTaxBps);
  }

  lemma FloorBrackets(x: real)
    ensures var f := (x / 10000.0).Floor; f as real * 10000.0 <= x < (f + 1) as real * 10000.0
  {
    var f := (x / 10000.0).Floor;
    assert f as real <= x / 10000.0 < f as real + 1.0;
    assert x / 10000.0 * 10000.0 == x;
  }

  /** There is only one such number. */
  lemma BasisPointsUnique(a: int, b: int, amount: int, bps: real)
    requires BasisPoints(a, amount, bps) && BasisPoints(b, amount, bps)
    ensures a == b
  {
  }

  datatype Position = Position(qty: int, cost: int)

  /** The value a ledger holds at one moment. */
  datatype Balance = Balance(cash: int, realized: int, positions: map<string, Position>)

  function Held(b: Balance, symbol: string): int {
    if symbol in b.positions then b.positions[symbol].qty else 0
  }

  function ApplyFill(costs: CostModel, b: Balance, symbol: string, side: Side, qty: int, amount: int)
    : Result<(Balance, int), ExecError>
  {
    if qty <= 0 || amount < 0 then Failure(InvalidFill)
    else if side.Buy? then
      var spent := amount + costs.Commission(amount);
      var pos := if symbol in b.positions then b.positions[symbol] else Position(0, 0);
      Success((Balance(b.cash - spent, b.realized,
                       b.positions[symbol := Position(pos.qty + qty, pos.cost + spent)]), 0))
    else if symbol !in b.positions || qty > b.positions[symbol].qty then Failure(Oversell)
    else
      var pos := b.positions[symbol];
      var removed := pos.cost * qty / pos.qty;
      var proceeds := amount - costs.Commission(amount) - costs.SellTax(amount);
      var left := Position(pos.qty - qty, pos.cost - removed);
      Success((Balance(b.cash + proceeds, b.realized + (proceeds - removed),
                       if left.qty == 0 then b.positions - {symbol} else b.positions[symbol := left]),
               proceeds - removed))
  }

  function PositionIn(b: Balance, symbol: string): Position {
    if symbol in b.positions then b.positions[symbol] else Position(0, 0)
  }

  /** Every position but one is as it was. */
  predicate OthersKept(before: Balance, after: Balance, symbol: string) {
    before.positions - {symbol} == after.positions - {symbol}
  }

  /** A buy: amount and fee leave the cash and become cost of the position. */
  predicate Bought(before: Balance, after: Balance, symbol: string, qty: int, amount: int, fee: int) {
    && after.cash == before.cash - amount - fee && after.realized == before.realized && OthersKept(before, after, symbol)
    && PositionIn(after, symbol).qty == PositionIn(before, symbol).qty + qty
    && PositionIn(after, symbol).cost == PositionIn(before, symbol).cost + amount + fee
  }

  /** The share of a position's cost that so many of its shares bear, rounded down. */
  predicate ShareOf(p: Position, qty: int, share: int) { share * p.qty <= p.cost * qty < (share + 1) * p.qty }

  /** A sell: the proceeds enter the cash, and the profit is what they exceed the cost by that leaves the position. */
  predicate Sold(before: Balance, after: Balance, symbol: string, qty: int, proceeds: int, profit: int) {
    && after.cash == before.cash + proceeds && after.realized == before.realized + profit && OthersKept(before, after, symbol)
    && PositionIn(after, symbol).qty == PositionIn(before, symbol).qty - qty
    && ShareOf(PositionIn(before, symbol), qty, proceeds - profit)
    && (if PositionIn(after, symbol).qty == 0 then symbol !in after.positions
        else PositionIn(after, symbol).cost == PositionIn(before, symbol).cost - (proceeds - profit))
  }

  /** The ledger object: the same accounting, in place. */
  class Ledger {
    const costs: CostModel
    var cash: int
    var realized: int
    var positions: map<string, Position>

    constructor (start: Balance, costs: CostModel)
      ensures Value() == start && this.costs == costs
    {
      this.costs := costs;
      cash, realized, positions := start.cash, start.realized, start.positions;
    }

    function Value(): Balance
      reads this
    {
      Balance(cash, realized, positions)
    }

    /** Applies one cumulative-fill difference; an error leaves the ledger untouched. */
    method Fill(symbol: string, side: Side, qty: int, amount: int) returns (r: Result<int, ExecError>)
      modifies this
      ensures match ApplyFill(costs, old(Value()), symbol, side, qty, amount)
              case Success((after, pnl)) => r == Success(pnl) && Value() == after
              case Failure(e) => r == Failure(e) && Value() == old(Value())
      ensures r.Failure? <==> qty <= 0 || amount < 0 || (side.Sell? && qty > Held(old(Value()), symbol))
      ensures r.Success? && side.Buy? ==>
                exists fee :: BasisPoints(fee, amount, costs.commissionBps) && Bought(old(Value()), Value(), symbol, qty, amount, fee)
      ensures r.Success? && side.Sell? ==>
                exists fee, tax :: BasisPoints(fee, amount, costs.commissionBps) && BasisPoints(tax, amount, costs.sellTaxBps)
                                   && Sold(old(Value()), Value(), symbol, qty, amount - fee - tax, r.value)
    {
      CostsAreBasisPoints(costs, amount);
      if qty <= 0 || amount < 0 {
        return Failure(InvalidFill);
      }
      if side.Buy? {
        var fee := costs.Commission(amount);
        cash := cash - (amount + fee);
        var pos := if symbol in positions then positions[symbol] else Position(0, 0);
        pos := pos.(qty := pos.qty + qty);
        pos := pos.(cost := pos.cost + (amount + fee));
        positions := positions[symbol := pos];
        return Success(0);
      }
      if symbol !in positions || qty > positions[symbol].qty {
        return Failure(Oversell);
      }
      var fee, tax := costs.Commission(amount), costs.SellTax(amount);
      var pos := positions[symbol];
      var removed := pos.cost * qty / pos.qty;
      pos := pos.(cost := pos.cost - removed);
      pos := pos.(qty := pos.qty - qty);
      positions := positions[symbol := pos];
      var proceeds := amount - fee - tax;
      cash := cash + proceeds;
      var pnl := proceeds - removed;
      realized := realized + pnl;
      if pos.qty == 0 {
        positions := map s | s in positions && s != symbol :: positions[s];
      }
      return Success(pnl);
    }
  }

  // ---------------------------------------------------------------- conservation

  ghost function TotalCost(m: map<string, Position>): int
    decreases m.Keys
  {
    if m == map[] then 0
    else
      var k :| k in m;
      m[k].cost + TotalCost(m - {k})
  }

  /** The total does not depend on the order in which positions are added up. */
  lemma {:induction false} TotalCostRemove(m: map<string, Position>, k: string)
    requires k in m
    ensures TotalCost(m) == m[k].cost + TotalCost(m - {k})
    decreases m.Keys
  {
    var j :| j in m && TotalCost(m) == m[j].cost + TotalCost(m - {j});
    if j != k {
      TotalCostRemove(m - {j}, k);
      TotalCostRemove(m - {k}, j);
      assert (m - {j}) - {k} == (m - {k}) - {j};
    }
  }

  /** Money is neither made nor lost: cash plus what the positions cost minus realized profit. */
  ghost function Worth(b: Balance): int {
    b.cash + TotalCost(b.positions) - b.realized
  }

  predicate SoundPosition(p: Position) { p.qty >= 0 && p.cost >= 0 }

  predicate Sound(b: Balance) {
    forall s :: s in b.positions ==> SoundPosition(b.positions[s])
  }

  predicate SoundCosts(costs: CostModel) { costs.commissionBps >= 0.0 && costs.sellTaxBps >= 0.0 }

  lemma FloorNonNegative(x: real)
    requires x >= 0.0
    ensures x.Floor >= 0
  {
  }

  lemma CommissionNonNegative(costs: CostModel, amount: int)
    requires SoundCosts(costs) && amount >= 0
    ensures costs.Commission(amount) >= 0
  {
    assert amount as real * costs.commissionBps >= 0.0;
    FloorNonNegative(amount as real * costs.commissionBps / 10000.0);
  }

  /** Average-cost removal takes between nothing and everything, and everything exactly when the whole position is
      sold or it cost nothing. */
  lemma RemovedShare(cost: int, qty: int, held: int)
    requires cost >= 0 && 0 < qty <= held
    ensures 0 <= cost * qty / held <= cost
    ensures cost * qty / held == cost <==> qty == held || cost == 0
    ensures (cost * qty / held) * held <= cost * qty < (cost * qty / held + 1) * held
  {
    var x := cost * qty;
    var r := x / held;
    DivFloor(x, held);
    MulNonNegative(cost, qty);
    MulMonotone(qty, held, cost);
    MulCompare(0, r + 1, held);
    MulCompare(r, cost, held);
    MulCompare(cost, r + 1, held);
  }

  /** One accepted fill conserves worth, moves exactly the filled quantity of exactly one symbol,
      keeps every position non-negative, and leaves no cost behind on a closed position. */
  lemma FillConserves(costs: CostModel, b: Balance, symbol: string, side: Side, qty: int, amount: int)
    requires ApplyFill(costs, b, symbol, side, qty, amount).Success?
    ensures var after := ApplyFill(costs, b, symbol, side, qty, amount).value.0;
            && Worth(after) == Worth(b)
            && Held(after, symbol) == Held(b, symbol) + (if side.Buy? then qty else -qty)
            && (forall s :: s != symbol ==> Held(after, s) == Held(b, s))
            && after.realized == b.realized + ApplyFill(costs, b, symbol, side, qty, amount).value.1
            && (SoundCosts(costs) && Sound(b) ==> Sound(after))
            && (side.Sell? && Held(after, symbol) == 0 ==> symbol !in after.positions)
  {
    var after := ApplyFill(costs, b, symbol, side, qty, amount).value.0;
    assert b.positions - {symbol} == after.positions - {symbol};
    if symbol in b.positions {
      TotalCostRemove(b.positions, symbol);
    } else {
      assert b.positions - {symbol} == b.positions;
    }
    if symbol in after.positions {
      TotalCostRemove(after.positions, symbol);
    } else {
      assert after.positions - {symbol} == after.positions;
    }
    if side.Sell? {
      var pos := b.positions[symbol];
      if pos.qty == qty {
        assert pos.cost * qty / pos.qty == pos.cost by { ExactShare(pos.cost, qty); }
      }
      if SoundCosts(costs) && Sound(b) {
        RemovedShare(pos.cost, qty, pos.qty);
      }
    } else if SoundCosts(costs) {
      CommissionNonNegative(costs, amount);
    }
  }

  lemma ExactShare(cost: int, qty: int)
    requires qty > 0
    ensures cost * qty / qty == cost
  {
    var r := cost * qty / qty;
    DivFloor(cost * qty, qty);
    MulCompare(r, cost, qty);
    MulCompare(cost, r + 1, qty);
  }

  // ---------------------------------------------------------------- rounding drift

  function AfterOneSell(p: Position, qty: int): (r: Position)
    requires SoundPosition(p) && 0 < qty <= p.qty
    ensures SoundPosition(r)
  {
    RemovedShare(p.cost, qty, p.qty);
    Position(p.qty - qty, p.cost - p.cost * qty / p.qty)
  }

  /** The position left after a run of sells, each removing its rounded-down share of the cost. */
  function AfterSells(p: Position, sells: seq<int>): Position
    requires SoundPosition(p)
    requires Sellable(p.qty, sells)
    decreases |sells|
  {
    if sells == [] then p
    else
      AfterSells(AfterOneSell(p, sells[0]), sells[1..])
  }

  predicate Sellable(qty: int, sells: seq<int>)
    decreases |sells|
  {
    sells == [] || (0 < sells[0] <= qty && Sellable(qty - sells[0], sells[1..]))
  }

  /** Average cost never falls, and the rounding drift stays under one won per sell:
      0 <= Cn*Q0 - C0*Qn < n*Q0 (and exactly 0 for no sell). */
  lemma {:induction false} RoundingDrift(p: Position, sells: seq<int>)
    requires SoundPosition(p) && p.qty > 0 && Sellable(p.qty, sells)
    ensures var q := AfterSells(p, sells);
            && SoundPosition(q)
            && 0 <= q.cost * p.qty - p.cost * q.qty
            && (|sells| == 0 ==> q == p)
            && (|sells| > 0 ==> q.cost * p.qty - p.cost * q.qty < |sells| * p.qty)
    decreases |sells|
  {
    if sells != [] {
      var m, rest := AfterOneSell(p, sells[0]), sells[1..];
      FirstSellDrift(p.cost, p.qty, sells[0]);
      if rest == [] {
        assert AfterSells(m, rest) == m;
      } else {
        RoundingDrift(m, rest);
        SellsShrink(m, rest);
        DriftStep(p.cost, p.qty, m.cost, m.qty, AfterSells(m, rest).cost, AfterSells(m, rest).qty, |rest|);
      }
    }
  }

  lemma FirstSellDrift(c: int, q: int, x: int)
    requires c >= 0 && 0 < x <= q
    ensures 0 <= (c - c * x / q) * q - c * (q - x) < q
  {
    var r := c * x / q;
    RemovedShare(c, x, q);
    Distribute(r, c, q);
    Distribute(x, q, c);
    Distribute(r, r + 1, q);
  }

  lemma {:induction false} SellsShrink(p: Position, sells: seq<int>)
    requires SoundPosition(p) && Sellable(p.qty, sells)
    ensures AfterSells(p, sells).qty <= p.qty
    decreases |sells|
  {
    if sells != [] {
      SellsShrink(AfterOneSell(p, sells[0]), sells[1..]);
    }
  }

  /** Composing the drift d1 of one sell with the drift d2 of the remaining k sells, over the
      quantities Q0 > Q1 >= Qn. */
  lemma DriftStep(c0: int, q0: int, c1: int, q1: int, cn: int, qn: int, k: int)
    requires 0 < q1 < q0 && 0 <= qn <= q1 && k >= 0
    requires 0 <= c1 * q0 - c0 * q1 < q0
    requires 0 <= cn * q1 - c1 * qn <= k * q1
    requires k > 0 ==> cn * q1 - c1 * qn < k * q1
    ensures 0 <= cn * q0 - c0 * qn < (k + 1) * q0
  {
    var d, d1, d2 := cn * q0 - c0 * qn, c1 * q0 - c0 * q1, cn * q1 - c1 * qn;
    DriftIdentity(c0, q0, c1, q1, cn, qn);
    DriftBound(d, d1, d2, k, q0, q1, qn);
  }

  lemma DriftBound(d: int, d1: int, d2: int, k: int, q0: int, q1: int, qn: int)
    requires 0 < q1 < q0 && 0 <= qn <= q1 && k >= 0
    requires 0 <= d1 < q0 && 0 <= d2 <= k * q1
    requires d * q1 == d2 * q0 + d1 * qn
    ensures 0 <= d < (k + 1) * q0
  {
    MulNonNegative(d2, q0);
    MulNonNegative(d1, qn);
    MulCompare(-1, d, q1);
    MulMonotone(d2, k * q1, q0);
    MulMonotone(qn, q1, d1);
    MulCompare(d1, q0, q1);
    DriftTotal(k, q0, q1);
    MulCompare(d, (k + 1) * q0, q1);
  }

  lemma DriftTotal(k: int, a: int, b: int)
    ensures (k * b) * a + a * b == ((k + 1) * a) * b
  {
    assert (k * b) * a == k * (a * b);
    assert ((k + 1) * a) * b == (k + 1) * (a * b);
  }

  lemma DriftIdentity(c0: int, q0: int, c1: int, q1: int, cn: int, qn: int)
    ensures (cn * q0 - c0 * qn) * q1 == (cn * q1 - c1 * qn) * q0 + (c1 * q0 - c0 * q1) * qn
  {
    assert (cn * q0 - c0 * qn) * q1 == cn * q0 * q1 - c0 * qn * q1;
    assert (cn * q1 - c1 * qn) * q0 == cn * q0 * q1 - c1 * qn * q0;
    assert (c1 * q0 - c0 * q1) * qn == c1 * qn * q0 - c0 * qn * q1;
  }

  // ---------------------------------------------------------------- the drift of a ledger

  datatype SellFill = SellFill(qty: int, amount: int)

  /** A ledger after a run of sell fills of one symbol. */
  function SellAll(costs: CostModel, b: Balance, symbol: string, fills: seq<SellFill>): Result<Balance, ExecError>
    decreases |fills|
  {
    if fills == [] then Success(b)
    else
      match ApplyFill(costs, b, symbol, Sell, fills[0].qty, fills[0].amount)
      case Failure(e) => Failure(e)
      case Success((after, _)) => SellAll(costs, after, symbol, fills[1..])
  }

  function PositionOf(b: Balance, symbol: string): Position {
    if symbol in b.positions then b.positions[symbol] else Position(0, 0)
  }

  function Quantities(fills: seq<SellFill>): seq<int> { seq(|fills|, i requires 0 <= i < |fills| => fills[i].qty) }

  lemma {:induction false} SellsOnLedger(costs: CostModel, b: Balance, symbol: string, fills: seq<SellFill>)
    requires SoundPosition(PositionOf(b, symbol)) && SellAll(costs, b, symbol, fills).Success?
    ensures Sellable(PositionOf(b, symbol).qty, Quantities(fills))
    ensures PositionOf(SellAll(costs, b, symbol, fills).value, symbol) == AfterSells(PositionOf(b, symbol), Quantities(fills))
    decreases |fills|
  {
    if fills != [] {
      var p, first := PositionOf(b, symbol), fills[0];
      var after := ApplyFill(costs, b, symbol, Sell, first.qty, first.amount).value.0;
      ExactShare(p.cost, p.qty);
      assert PositionOf(after, symbol) == AfterOneSell(p, first.qty);
      SellsOnLedger(costs, after, symbol, fills[1..]);
      assert Quantities(fills)[1..] == Quantities(fills[1..]);
    }
  }

  /** In any run of sells a ledger accepts, the average cost of what is left never falls, and the rounding drift stays
      under one won per sell. */
  lemma LedgerDrift(costs: CostModel, b: Balance, symbol: string, fills: seq<SellFill>)
    requires symbol in b.positions && SoundPosition(b.positions[symbol]) && b.positions[symbol].qty > 0
    requires fills != [] && SellAll(costs, b, symbol, fills).Success?
    ensures var p, q := b.positions[symbol], PositionOf(SellAll(costs, b, symbol, fills).value, symbol);
            0 <= q.cost * p.qty - p.cost * q.qty < |fills| * p.qty
  {
    SellsOnLedger(costs, b, symbol, fills);
    RoundingDrift(b.positions[symbol], Quantities(fills));
  }
}
