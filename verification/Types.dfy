/** Plain values shared by every component: orders, trades, execution
    reports and commands.

    The enumerations of an incoming order travel as raw bytes through shared
    memory and the journal, so they are bytes here and may hold any code; the
    enumerations the engine itself produces are datatypes. */
module Types {

  type u8 = x: int | 0 <= x < 0x100
  type u32 = x: int | 0 <= x < 0x1_0000_0000
  type u64 = x: int | 0 <= x < 0x1_0000_0000_0000_0000
  type i64 = x: int | -0x8000_0000_0000_0000 <= x < 0x8000_0000_0000_0000

  const WORD: int := 0x1_0000_0000_0000_0000

  // Side
  const BUY: u8 := 0
  const SELL: u8 := 1

  // OrderType
  const LIMIT: u8 := 0
  const MARKET: u8 := 1

  // TimeInForce
  const GTC: u8 := 0
  const IOC: u8 := 1
  const FOK: u8 := 2

  datatype Order = Order(id: u64, side: u8, kind: u8, tif: u8, flags: u8,
                         price: i64, quantity: u32, sequence: nat)
  {
    predicate ValidSide() { side == BUY || side == SELL }
    predicate ValidKind() { kind == LIMIT || kind == MARKET }
    predicate ValidTif() { tif == GTC || tif == IOC || tif == FOK }
    /** No bit other than POST_ONLY (bit 0) is set. */
    predicate KnownFlags() { flags / 2 == 0 }
    predicate PostOnly() { flags % 2 == 1 }
    /** A remainder of this order may stay in the book. */
    predicate MayRest() { kind == LIMIT && tif == GTC }
  }

  datatype Trade = Trade(id: nat, buyId: u64, sellId: u64, price: i64, quantity: u32, sequence: nat)

  datatype Command = NewOrder(order: Order) | Cancel(id: u64)

  datatype CommandKind = NewOrderCommand | CancelCommand

  datatype Status = Rejected | Resting | PartiallyFilled | Filled | Expired | Canceled

  datatype Reason =
    | NoReason
    | InvalidOrderId
    | DuplicateOrderId
    | InvalidSide
    | InvalidOrderType
    | InvalidTimeInForce
    | InvalidOrderFlags
    | InvalidQuantity
    | InvalidLimitPrice
    | MarketOrderCannotBeGtc
    | PostOnlyRequiresGtcLimit
    | PostOnlyWouldTrade
    | FokNotFillable
    | RiskKillSwitch
    | RiskMaxOrderQuantity
    | RiskPriceOutOfRange
    | RiskMaxNotional
    | RiskMaxActiveOrders
    | OrderNotFound
    | EngineShuttingDown

  datatype Report = Report(orderId: u64, sequence: nat, command: CommandKind, status: Status,
                           reason: Reason, requested: u32, executed: u32, remaining: u32,
                           tradeCount: nat)
  {
    predicate Accepted() { status != Rejected }
  }

  function OppositeSide(side: u8): u8 { if side == BUY then SELL else BUY }

  function Min(a: int, b: int): int { if a <= b then a else b }
}
