/** The gate every order passes before it is sent: what it reads from the session, and the rules it enforces, told by the
    fields of the session, the quote and the limits. */
module Admission {
  import opened Contracts
  import opened Accounting
  import opened Recovery
  import opened Sessions
  import opened Risk

  /** What a submit reads from outside: clock readings, kill switch and the broker's orderable cash. */
  datatype Surroundings = Surroundings(killSwitch: bool, orderableCash: int, now: int, createdAt: int, ts: int, sentAt: int)

  // ---------------------------------------------------------------- the gate

  function CountAfter(times: seq<int>, since: int): nat {
    if times == [] then 0
    else CountAfter(times[..|times| - 1], since) + (if times[|times| - 1] > since then 1 else 0)
  }

  predicate UnknownFor(orders: Orders, i: Intent) {
    exists id :: id in orders && orders[id].status.Unknown? && orders[id].SameKey(i)
  }

  function GateContext(costs: CostModel, s: Session, blocked: bool, i: Intent, price: int, w: Surroundings): Context {
    Context(w.killSwitch, UnknownFor(s.orders, i), CountAfter(s.submitTimes, w.now - 60), s.ledger.realized,
            Held(s.ledger, i.symbol), Sum(s.orders, OpenOf(Buy, i.symbol), s.seqNo),
            Sum(s.orders, OpenOf(Sell, i.symbol), s.seqNo),
            if i.side.Buy? then w.orderableCash else 0, costs.Commission(i.qty * price), blocked)
  }

  /** The gate's verdict: the reject code, or None. */
  function Gate(costs: CostModel, limits: Limits, s: Session, blocked: bool, i: Intent, q: Quote, w: Surroundings)
    : Option<RejectCode>
  {
    match ReferencePrice(i, q)
    case Failure(code) => Some(code)
    case Success(price) => CheckIntent(i, q, limits, GateContext(costs, s, blocked, i, price, w))
  }

  /** Passing the gate is what makes placing an order safe. */
  lemma GateAdmits(costs: CostModel, limits: Limits, s: Session, blocked: bool, i: Intent, q: Quote, w: Surroundings)
    requires Gate(costs, limits, s, blocked, i, q, w).None? && NoPending(s.orders)
    ensures Enabled(s, Place(i, w.createdAt, w.ts, w.sentAt))
  {
    assert !UnknownFor(s.orders, i);
  }

  // ---------------------------------------------------------------- the rules on the session's own fields

  /** The sends of the last minute. */
  function LastMinute(times: seq<int>, now: int): set<nat> { set k: nat | k < |times| && times[k] > now - 60 }

  /** What open orders of one side of a symbol may still fill. */
  function OpenQuantity(s: Session, side: Side, symbol: string): int {
    Sum(s.orders,
        (o: Order) => if o.intent.symbol == symbol && o.intent.side == side && !(o.status in {Filled, Cancelled, Rejected})
                      then o.intent.qty - o.filledQty else 0,
        s.seqNo)
  }

  /** What money, positions and limits allow. */
  ghost predicate Affordable(costs: CostModel, limits: Limits, s: Session, i: Intent, price: int, cash: int) {
    && i.qty * price <= limits.maxOrderNotional
    && (i.side.Buy? ==>
          && -limits.maxDailyLoss < s.ledger.realized
          && (PositionIn(s.ledger, i.symbol).qty + OpenQuantity(s, Buy, i.symbol) + i.qty) * price <= limits.maxPositionNotional
          && exists fee :: BasisPoints(fee, i.qty * price, costs.commissionBps) && i.qty * price + fee <= cash)
    && (i.side.Sell? ==> OpenQuantity(s, Sell, i.symbol) + i.qty <= PositionIn(s.ledger, i.symbol).qty)
  }

  /** The price fits the quote: a limit on the grid and within the day's band, or none. */
  predicate FitsQuote(i: Intent, q: Quote) {
    && !q.halted && (q.last >= 1 ==> UnitAt(q.last, q.tick))
    && (i.orderType.Limit? ==>
          i.limitPrice.Some? && OnGrid(i.limitPrice.value) && q.lowerLimit <= i.limitPrice.value <= q.upperLimit)
    && (i.orderType.Market? ==> i.limitPrice.None?)
  }

  /** Everything a new order has to meet. */
  ghost predicate Admissible(costs: CostModel, limits: Limits, s: Session, blocked: bool, i: Intent, q: Quote, w: Surroundings) {
    && !w.killSwitch && !blocked
    && (forall id :: id in s.orders && s.orders[id].status == Unknown ==>
          s.orders[id].intent.symbol != i.symbol || s.orders[id].intent.side != i.side)
    && (limits.whitelist == {} || i.symbol in limits.whitelist)
    && i.qty >= 1 && FitsQuote(i, q) && |LastMinute(s.submitTimes, w.now)| < limits.maxOrdersPerMinute
    && exists price :: JudgedAt(i, q, price) && Affordable(costs, limits, s, i, price, w.orderableCash)
  }

  /** What the rules are told about the session. */
  ghost predicate Tells(ctx: Context, costs: CostModel, s: Session, blocked: bool, i: Intent, price: int, w: Surroundings) {
    && ctx.killSwitch == w.killSwitch && ctx.blocked == blocked
    && (ctx.unknownPending <==>
          exists id :: id in s.orders && s.orders[id].status == Unknown
                       && s.orders[id].intent.symbol == i.symbol && s.orders[id].intent.side == i.side)
    && ctx.ordersLastMinute == |LastMinute(s.submitTimes, w.now)| && ctx.realizedPnl == s.ledger.realized
    && ctx.positionQty == PositionIn(s.ledger, i.symbol).qty
    && ctx.openBuyQty == OpenQuantity(s, Buy, i.symbol) && ctx.openSellQty == OpenQuantity(s, Sell, i.symbol)
    && (i.side.Buy? ==> ctx.orderableCash == w.orderableCash) && BasisPoints(ctx.estCommission, i.qty * price, costs.commissionBps)
  }

  /** The code names the first rule the order breaks; a limit order without a limit has no price to be judged at. */
  ghost predicate Refuses(code: RejectCode, costs: CostModel, limits: Limits, s: Session, blocked: bool, i: Intent, q: Quote, w: Surroundings) {
    if i.orderType.Limit? && i.limitPrice.None? then code == PriceInvalid
    else
      exists price, ctx ::
        && JudgedAt(i, q, price) && Tells(ctx, costs, s, blocked, i, price, w)
        && Breaks(code, i, q, limits, ctx, price)
        && forall other :: RuleNo(other) < RuleNo(code) ==> !Breaks(other, i, q, limits, ctx, price)
  }

  // ---------------------------------------------------------------- the gate enforces the rules

  lemma {:induction false} CountIsLastMinute(times: seq<int>, now: int)
    ensures CountAfter(times, now - 60) == |LastMinute(times, now)|
  {
    if times == [] {
      assert LastMinute(times, now) == {};
    } else {
      var init, last := times[..|times| - 1], |times| - 1;
      CountIsLastMinute(init, now);
      if times[last] > now - 60 {
        assert LastMinute(times, now) == LastMinute(init, now) + {last};
      } else {
        assert LastMinute(times, now) == LastMinute(init, now);
      }
    }
  }

  lemma OpenIsOpenQuantity(s: Session, side: Side, symbol: string)
    ensures Sum(s.orders, OpenOf(side, symbol), s.seqNo) == OpenQuantity(s, side, symbol)
  {
    var w := (o: Order) => if o.intent.symbol == symbol && o.intent.side == side && !(o.status in {Filled, Cancelled, Rejected})
                           then o.intent.qty - o.filledQty else 0;
    SameWeights(s.orders, OpenOf(side, symbol), w, s.seqNo);
  }

  lemma {:induction false} SameWeights(orders: Orders, v: Order -> int, w: Order -> int, n: nat)
    requires forall id :: id in orders ==> v(orders[id]) == w(orders[id])
    ensures Sum(orders, v, n) == Sum(orders, w, n)
  {
    if n > 0 {
      SameWeights(orders, v, w, n - 1);
    }
  }

  lemma ContextTells(costs: CostModel, s: Session, blocked: bool, i: Intent, price: int, w: Surroundings)
    ensures Tells(GateContext(costs, s, blocked, i, price, w), costs, s, blocked, i, price, w)
  {
    CountIsLastMinute(s.submitTimes, w.now);
    OpenIsOpenQuantity(s, Buy, i.symbol);
    OpenIsOpenQuantity(s, Sell, i.symbol);
    CostsAreBasisPoints(costs, i.qty * price);
  }

  /** If no rule is broken the order meets everything it has to, and the other way round. */
  lemma UnbrokenIsAdmissible(
    costs: CostModel, limits: Limits, s: Session, blocked: bool, i: Intent, q: Quote, w: Surroundings, price: int, ctx: Context)
    requires JudgedAt(i, q, price) && Tells(ctx, costs, s, blocked, i, price, w)
    ensures (forall code :: !Breaks(code, i, q, limits, ctx, price)) ==> Admissible(costs, limits, s, blocked, i, q, w)
    ensures Admissible(costs, limits, s, blocked, i, q, w) ==> forall code :: !Breaks(code, i, q, limits, ctx, price)
  {
    if forall code :: !Breaks(code, i, q, limits, ctx, price) {
      UnbrokenMeets(costs, limits, s, blocked, i, q, w, price, ctx);
    }
    if Admissible(costs, limits, s, blocked, i, q, w) {
      forall code
        ensures !Breaks(code, i, q, limits, ctx, price)
      {
        MeetsEach(costs, limits, s, blocked, i, q, w, price, ctx, code);
      }
    }
  }

  lemma UnbrokenMeets(
    costs: CostModel, limits: Limits, s: Session, blocked: bool, i: Intent, q: Quote, w: Surroundings, price: int, ctx: Context)
    requires JudgedAt(i, q, price) && Tells(ctx, costs, s, blocked, i, price, w)
    requires forall code :: !Breaks(code, i, q, limits, ctx, price)
    ensures Admissible(costs, limits, s, blocked, i, q, w)
  {
    assert !Breaks(KillSwitch, i, q, limits, ctx, price) && !Breaks(AccountMismatch, i, q, limits, ctx, price);
    assert !Breaks(UnknownPending, i, q, limits, ctx, price) && !Breaks(SymbolNotAllowed, i, q, limits, ctx, price);
    assert !Breaks(QtyInvalid, i, q, limits, ctx, price) && !Breaks(OrderRateLimit, i, q, limits, ctx, price);
    UnbrokenFits(i, q, limits, price, ctx);
    UnbrokenAffords(costs, limits, s, blocked, i, q, w, price, ctx);
  }

  lemma UnbrokenFits(i: Intent, q: Quote, limits: Limits, price: int, ctx: Context)
    requires JudgedAt(i, q, price) && forall code :: !Breaks(code, i, q, limits, ctx, price)
    ensures FitsQuote(i, q)
  {
    assert !Breaks(PriceInvalid, i, q, limits, ctx, price) && !Breaks(TradingHalted, i, q, limits, ctx, price);
    assert !Breaks(TickTableMismatch, i, q, limits, ctx, price) && !Breaks(PriceOffTick, i, q, limits, ctx, price);
    assert !Breaks(PriceOutOfBand, i, q, limits, ctx, price);
  }

  lemma UnbrokenAffords(
    costs: CostModel, limits: Limits, s: Session, blocked: bool, i: Intent, q: Quote, w: Surroundings, price: int, ctx: Context)
    requires Tells(ctx, costs, s, blocked, i, price, w) && forall code :: !Breaks(code, i, q, limits, ctx, price)
    ensures Affordable(costs, limits, s, i, price, w.orderableCash)
  {
    assert !Breaks(DailyLossLimit, i, q, limits, ctx, price) && !Breaks(NotionalLimit, i, q, limits, ctx, price);
    assert !Breaks(PositionLimit, i, q, limits, ctx, price) && !Breaks(InsufficientCash, i, q, limits, ctx, price);
    assert !Breaks(InsufficientPosition, i, q, limits, ctx, price);
  }

  lemma MeetsEach(
    costs: CostModel, limits: Limits, s: Session, blocked: bool, i: Intent, q: Quote, w: Surroundings, price: int, ctx: Context,
    code: RejectCode)
    requires JudgedAt(i, q, price) && Tells(ctx, costs, s, blocked, i, price, w) && Admissible(costs, limits, s, blocked, i, q, w)
    ensures !Breaks(code, i, q, limits, ctx, price)
  {
    var p :| JudgedAt(i, q, p) && Affordable(costs, limits, s, i, p, w.orderableCash);
    assert p == price;
    if i.side.Buy? {
      var fee :| BasisPoints(fee, i.qty * price, costs.commissionBps) && i.qty * price + fee <= w.orderableCash;
      BasisPointsUnique(fee, ctx.estCommission, i.qty * price, costs.commissionBps);
    }
  }

  /** THE GATE. An order passes if and only if it meets everything it has to; otherwise the code it is refused with names
      the first rule it breaks. */
  lemma GateExactly(costs: CostModel, limits: Limits, s: Session, blocked: bool, i: Intent, q: Quote, w: Surroundings)
    ensures var verdict := Gate(costs, limits, s, blocked, i, q, w);
            && (verdict.None? <==> Admissible(costs, limits, s, blocked, i, q, w))
            && (verdict.Some? ==> Refuses(verdict.value, costs, limits, s, blocked, i, q, w))
  {
    if i.orderType.Limit? && i.limitPrice.None? {
      assert !FitsQuote(i, q);
    } else {
      var price := ReferencePrice(i, q).value;
      var ctx := GateContext(costs, s, blocked, i, price, w);
      assert JudgedAt(i, q, price);
      ContextTells(costs, s, blocked, i, price, w);
      ChecksInOrder(i, q, limits, ctx, price);
      UnbrokenIsAdmissible(costs, limits, s, blocked, i, q, w, price, ctx);
    }
  }
}
