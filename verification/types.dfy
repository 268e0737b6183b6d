/** Records of the order-placement step: catalogue products, cart lines, the line
    items that orders and the waiting list hold, saved orders, and the outcome of a
    placement. Prices are whole minor currency units so that totals are exact. */
module Types {

  type ProductId = string
  type CartId = string
  /** Identity of a saved order: its position in the store's order sequence. */
  type OrderId = nat

  /** A catalogue product. `stock` is a plain integer: the catalogue endpoints write
      it unchecked, so non-negativity is a property the allocation preserves, not a
      property of the type. */
  datatype Product = Product(name: string, description: string, price: int, stock: int)

  /** One line of a shopping cart: which product, and how many units are requested. */
  datatype CartLine = CartLine(productId: ProductId, quantity: int)

  /** A product snapshot with a quantity, as stored in an order and in the waiting list. */
  datatype LineItem = LineItem(productId: ProductId, name: string, description: string,
                               quantity: int, price: int)

  type OrderLine = LineItem
  type WaitlistEntry = LineItem

  /** A saved order: its lines in cart order and the total computed once at creation. */
  datatype Order = Order(id: OrderId, lines: seq<OrderLine>, totalAmount: int)

  /** The failures a placement reports; `InternalError` stands for a failing database
      call, which this model never produces. */
  datatype Error = CartNotFound | ProductNotFound | InternalError

  datatype Result<T> = Ok(value: T) | Err(error: Error)

  /** What a successful placement answers: the lines that were ordered and the entries
      that went to the waiting list. */
  datatype Placed = Placed(ordered: seq<OrderLine>, waitlisted: seq<WaitlistEntry>)
}
