/** Vocabulary shared by the order pipeline: sides, identifiers, order statuses. */
module Types {
  datatype Option<+T> = None | Some(value: T)

  datatype Side = Buy | Sell {
    function Opposite(): Side {
      match this
      case Buy => Sell
      case Sell => Buy
    }

    /** +1 for a buy, -1 for a sell. */
    function Sign(): real {
      match this
      case Buy => 1.0
      case Sell => -1.0
    }
  }

  // Decimal prices and quantities; rounding is not the point of this model.
  type Price = real
  type Quantity = real

  /** The position of an order in the OMS's insertion-ordered map. It stands for
      the fresh uuid the engine draws when it creates the order. */
  type OrderId = nat

  type StrategyId = string
  type InstrumentId = string
  type LegId = string
  type SignalId = nat
  type FillId = nat
  type ExchangeId = string

  /** A client order id is either minted by this process from the strategy and the
      order id, or was read off the venue (another process, a human). */
  datatype ClientOrderId =
    | Minted(strategy: StrategyId, order: OrderId)
    | Foreign(text: string, owner: StrategyId)

  datatype OrderStatus =
    | PendingNew
    | Acknowledged
    | PartiallyFilled
    | Filled
    | PendingCancel
    | PendingAmend
    | Cancelled
    | Rejected
    | Expired

  datatype Fill = Fill(id: FillId, price: Price, quantity: Quantity, tsEvent: int)

  const NS_PER_SECOND: int := 1_000_000_000

  function Sum(xs: seq<real>): real {
    if xs == [] then 0.0 else Sum(xs[..|xs| - 1]) + xs[|xs| - 1]
  }

  predicate NonNegative(xs: seq<real>) { forall i :: 0 <= i < |xs| ==> xs[i] >= 0.0 }

  /** Removing a key from the order of an insertion-ordered dictionary. */
  function Without<T(==)>(keys: seq<T>, key: T): seq<T> {
    if keys == [] then []
    else if keys[0] == key then Without(keys[1..], key)
    else [keys[0]] + Without(keys[1..], key)
  }
}
