/** The pre-trade risk layer. */
module Risk {
  import opened Types

  /** `RiskLimits` together with the kill switch, both fixed for a run. */
  datatype RiskConfig = RiskConfig(killSwitch: bool, maxOrderQuantity: u32, minLimitPrice: i64,
                                   maxLimitPrice: i64, maxOrderNotional: u64, maxActiveOrders: u64)

  /** The C++ conversion of a signed price to `uint64_t`. */
  function PriceBits(price: i64): u64 { if price < 0 then price + WORD else price }

  function Validate(risk: RiskConfig, order: Order, activeOrders: nat, mayAddActiveOrder: bool): Reason {
    if risk.killSwitch then RiskKillSwitch
    else if order.quantity > risk.maxOrderQuantity then RiskMaxOrderQuantity
    else if order.kind == LIMIT && (order.price < risk.minLimitPrice || order.price > risk.maxLimitPrice) then
      RiskPriceOutOfRange
    else if order.kind == LIMIT && order.quantity != 0
            && PriceBits(order.price) > risk.maxOrderNotional / order.quantity then
      RiskMaxNotional
    else if mayAddActiveOrder && activeOrders >= risk.maxActiveOrders then RiskMaxActiveOrders
    else NoReason
  }

  /** What the limits mean for one order, over exact products. */
  predicate WithinLimits(risk: RiskConfig, order: Order) {
    && order.quantity <= risk.maxOrderQuantity
    && (order.kind == LIMIT ==>
          && risk.minLimitPrice <= order.price <= risk.maxLimitPrice
          && PriceBits(order.price) * order.quantity <= risk.maxOrderNotional)
  }

  lemma {:induction false} QuotientBound(p: nat, n: nat, q: nat)
    requires q > 0
    ensures p <= n / q <==> p * q <= n
  {
    var d := n / q;
    assert n == d * q + n % q;
    if p <= d {
      assert p * q <= d * q;
    } else {
      assert p * q >= (d + 1) * q == d * q + q;
    }
  }

  /** The division in the source decides the exact price-times-quantity bound,
      so nothing can overflow and nothing is rounded. */
  lemma {:induction false} ValidateDecidesLimits(risk: RiskConfig, order: Order, activeOrders: nat, mayAdd: bool)
    ensures Validate(risk, order, activeOrders, mayAdd) == NoReason
       <==> && !risk.killSwitch
            && WithinLimits(risk, order)
            && (mayAdd ==> activeOrders < risk.maxActiveOrders)
  {
    if order.quantity != 0 {
      QuotientBound(PriceBits(order.price), risk.maxOrderNotional, order.quantity);
    }
  }

  /** A partial fill cannot push an order outside its limits. */
  lemma {:induction false} SmallerStaysWithin(risk: RiskConfig, order: Order, quantity: u32, sequence: nat)
    requires WithinLimits(risk, order) && quantity <= order.quantity
    ensures WithinLimits(risk, order.(quantity := quantity, sequence := sequence))
  {
    var p := PriceBits(order.price);
    assert p * quantity <= p * order.quantity;
  }
}
