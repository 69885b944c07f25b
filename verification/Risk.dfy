/** Pre-trade risk gate and the exchange tick table (src/execution/risk.py, src/execution/ticks.py). */
module Risk {
  import opened Contracts

  datatype Limits = Limits(maxOrderNotional: int, maxPositionNotional: int, maxOrdersPerMinute: int,
                           maxDailyLoss: int, whitelist: set<string>)

  datatype Context = Context(killSwitch: bool, unknownPending: bool, ordersLastMinute: int,
                             realizedPnl: int, positionQty: int, openBuyQty: int, openSellQty: int,
                             orderableCash: int, estCommission: int, blocked: bool)

  function TickOf(price: int): int
    requires price >= 1
  {
    if price >= 500_000 then 1_000
    else if price >= 200_000 then 500
    else if price >= 50_000 then 100
    else if price >= 20_000 then 50
    else if price >= 5_000 then 10
    else if price >= 2_000 then 5
    else 1
  }

  predicate TickAligned(price: int) {
    price >= 1 && price % TickOf(price) == 0
  }

  function ReferencePrice(i: Intent, q: Quote): Result<int, RejectCode> {
    if i.orderType.Limit? then
      if i.limitPrice.None? then Failure(PriceInvalid) else Success(i.limitPrice.value)
    else if i.side.Buy? then Success(q.upperLimit)
    else Success(q.last)
  }

  /** The first violated rule, in the source's order, or None when the order may be sent. */
  function CheckIntent(i: Intent, q: Quote, limits: Limits, ctx: Context): Option<RejectCode> {
    if ctx.killSwitch then Some(KillSwitch)
    else if ctx.blocked then Some(AccountMismatch)
    else if ctx.unknownPending then Some(UnknownPending)
    else if limits.whitelist != {} && i.symbol !in limits.whitelist then Some(SymbolNotAllowed)
    else if i.qty < 1 then Some(QtyInvalid)
    else if i.orderType.Limit? == i.limitPrice.None? then Some(PriceInvalid)
    else if q.halted then Some(TradingHalted)
    else if q.last >= 1 && TickOf(q.last) != q.tick then Some(TickTableMismatch)
    else if i.orderType.Limit? && !TickAligned(i.limitPrice.value) then Some(PriceOffTick)
    else if i.orderType.Limit? && !(q.lowerLimit <= i.limitPrice.value <= q.upperLimit) then Some(PriceOutOfBand)
    else if ctx.ordersLastMinute >= limits.maxOrdersPerMinute then Some(OrderRateLimit)
    else
      var price := ReferencePrice(i, q).value;
      var notional := i.qty * price;
      if i.side.Buy? && ctx.realizedPnl <= -limits.maxDailyLoss then Some(DailyLossLimit)
      else if notional > limits.maxOrderNotional then Some(NotionalLimit)
      else if i.side.Buy?
              && (ctx.positionQty + ctx.openBuyQty + i.qty) * price > limits.maxPositionNotional then Some(PositionLimit)
      else if i.side.Buy? && notional + ctx.estCommission > ctx.orderableCash then Some(InsufficientCash)
      else if i.side.Sell? && i.qty > ctx.positionQty - ctx.openSellQty then Some(InsufficientPosition)
      else None
  }

  // ---------------------------------------------------------------- the rules by fields

  /** The exchange's tick unit at a price. */
  predicate UnitAt(price: int, unit: int) {
    || (1 <= price < 2_000 && unit == 1) || (2_000 <= price < 5_000 && unit == 5) || (5_000 <= price < 20_000 && unit == 10)
    || (20_000 <= price < 50_000 && unit == 50) || (50_000 <= price < 200_000 && unit == 100)
    || (200_000 <= price < 500_000 && unit == 500) || (500_000 <= price && unit == 1_000)
  }

  /** The price is a whole number of its own units. */
  predicate OnGrid(price: int) {
    exists unit :: unit in {1, 5, 10, 50, 100, 500, 1_000} && UnitAt(price, unit) && price % unit == 0
  }

  /** The price an order is judged at: its limit, else the highest possible for a buy and the last for a sell. */
  predicate JudgedAt(i: Intent, q: Quote, price: int) {
    && (i.orderType.Limit? ==> i.limitPrice == Some(price))
    && (i.orderType.Market? && i.side.Buy? ==> price == q.upperLimit)
    && (i.orderType.Market? && i.side.Sell? ==> price == q.last)
  }

  /** The order breaks the rule with this code. */
  predicate Breaks(code: RejectCode, i: Intent, q: Quote, limits: Limits, ctx: Context, price: int) {
    match code
    case KillSwitch => ctx.killSwitch
    case AccountMismatch => ctx.blocked
    case UnknownPending => ctx.unknownPending
    case SymbolNotAllowed => limits.whitelist != {} && i.symbol !in limits.whitelist
    case QtyInvalid => i.qty <= 0
    case PriceInvalid => (i.orderType.Limit? && i.limitPrice.None?) || (i.orderType.Market? && i.limitPrice.Some?)
    case TradingHalted => q.halted
    case TickTableMismatch => q.last > 0 && !UnitAt(q.last, q.tick)
    case PriceOffTick => i.orderType.Limit? && !OnGrid(price)
    case PriceOutOfBand => i.orderType.Limit? && (price < q.lowerLimit || price > q.upperLimit)
    case OrderRateLimit => limits.maxOrdersPerMinute <= ctx.ordersLastMinute
    case DailyLossLimit => i.side.Buy? && ctx.realizedPnl + limits.maxDailyLoss <= 0
    case NotionalLimit => limits.maxOrderNotional < i.qty * price
    case PositionLimit => i.side.Buy? && limits.maxPositionNotional < (ctx.positionQty + ctx.openBuyQty + i.qty) * price
    case InsufficientCash => i.side.Buy? && ctx.orderableCash < i.qty * price + ctx.estCommission
    case InsufficientPosition => i.side.Sell? && ctx.positionQty < ctx.openSellQty + i.qty
  }

  /** The place of a rule in the order in which they are tried. */
  function RuleNo(code: RejectCode): nat {
    match code
    case KillSwitch => 0
    case AccountMismatch => 1
    case UnknownPending => 2
    case SymbolNotAllowed => 3
    case QtyInvalid => 4
    case PriceInvalid => 5
    case TradingHalted => 6
    case TickTableMismatch => 7
    case PriceOffTick => 8
    case PriceOutOfBand => 9
    case OrderRateLimit => 10
    case DailyLossLimit => 11
    case NotionalLimit => 12
    case PositionLimit => 13
    case InsufficientCash => 14
    case InsufficientPosition => 15
  }

  lemma TickIsUnit(price: int, unit: int)
    requires price >= 1
    ensures TickOf(price) == unit <==> UnitAt(price, unit)
  {
  }

  lemma AlignedIsOnGrid(price: int)
    ensures TickAligned(price) <==> OnGrid(price)
  {
    if price >= 1 {
      TickIsUnit(price, TickOf(price));
      if OnGrid(price) {
        var unit :| unit in {1, 5, 10, 50, 100, 500, 1_000} && UnitAt(price, unit) && price % unit == 0;
        TickIsUnit(price, unit);
      }
    }
  }

  /** The check answers with the first rule that is broken. */
  lemma ChecksInOrder(i: Intent, q: Quote, limits: Limits, ctx: Context, price: int)
    requires JudgedAt(i, q, price)
    ensures var verdict := CheckIntent(i, q, limits, ctx);
            && (verdict.None? ==> forall code :: !Breaks(code, i, q, limits, ctx, price))
            && (verdict.Some? ==>
                  && Breaks(verdict.value, i, q, limits, ctx, price)
                  && forall code :: RuleNo(code) < RuleNo(verdict.value) ==> !Breaks(code, i, q, limits, ctx, price))
  {
    AlignedIsOnGrid(price);
    if q.last >= 1 {
      TickIsUnit(q.last, q.tick);
    }
  }
}
