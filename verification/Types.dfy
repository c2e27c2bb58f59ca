/** Value types shared by the whole model: orders, trades and machine-integer ranges. */
module Types {

  const U64_MAX: int := 0xFFFF_FFFF_FFFF_FFFF
  const TWO64: int := 0x1_0000_0000_0000_0000

  type u32 = x: int | 0 <= x <= 0xFFFF_FFFF
  type u64 = x: int | 0 <= x <= 0xFFFF_FFFF_FFFF_FFFF

  type OrderId = u64
  type Price = u64
  type Qty = u64
  type User = u64

  datatype Option<+T> = None | Some(value: T)

  datatype Side = Buy | Sell {
    function Opposite(): Side {
      match this
      case Buy => Sell
      case Sell => Buy
    }
  }

  datatype OrderType = Limit | Market

  datatype TimeInForce = Gtc | Ioc | Fok | IocBudget | FokBudget

  /** An order. `timestamp` is the engine's sequence number at entry, the key of time priority. */
  datatype Order = Order(
    id: OrderId,
    instrument: u32,
    user: User,
    side: Side,
    orderType: OrderType,
    tif: TimeInForce,
    price: Price,
    quantity: Qty,
    remaining: Qty,
    timestamp: u64)

  function Min(a: int, b: int): (m: int) {
    if a <= b then a else b
  }
}
