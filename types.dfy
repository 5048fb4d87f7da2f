/** The records the storefront passes around: catalog products, cart lines,
    signed-in users, orders and their line items, and the outcome of a
    remote read. Prices are integers (cents); quantities are integers with
    no sign restriction, as the store's own type does not restrict them. */
module Types {

  datatype Option<+T> = None | Some(value: T) {
    function GetOr(default: T): T {
      match this
      case Some(v) => v
      case None => default
    }
  }

  /** A catalog entry, as snapshotted into the cart when it is added. */
  datatype Product = Product(
    id: string,
    code: string,
    name: string,
    description: string,
    price: int,
    imageUrl: string,
    active: bool)

  /** One line of the cart: a product snapshot and how many of it. */
  datatype CartItem = CartItem(product: Product, quantity: int)

  datatype Role = Customer | Sales | Admin

  /** The signed-in identity; `fullName` is nullable in the profile table. */
  datatype User = User(id: string, email: string, fullName: Option<string>, role: Role)

  /** The four values of the order status column. */
  datatype Status = Pending | Processing | Delivered | Cancelled

  /** An order row as read back from the order table. */
  datatype Order = Order(
    id: string,
    orderNumber: string,
    userId: string,
    status: Status,
    totalAmount: int,
    createdAt: string,
    updatedAt: string)

  /** An order line-item row as read back from the order-item table. */
  datatype OrderItem = OrderItem(
    id: string,
    orderId: string,
    productId: string,
    quantity: int,
    unitPrice: int,
    totalPrice: int)

  /** The answer to a remote read: rows (possibly null) or an error. */
  datatype Fetch<+T> = Fetched(data: Option<T>) | FetchFailed

  /** The rows a list read leaves on screen: the new rows (null read as
      none) when it succeeds, the current ones when it fails. */
  function Reloaded<T>(current: seq<T>, response: Fetch<seq<T>>): (r: seq<T>)
    ensures response.FetchFailed? ==> r == current
    ensures response.Fetched? && response.data.None? ==> r == []
    ensures response.Fetched? && response.data.Some? ==> r == response.data.value
  {
    if response.Fetched? then response.data.GetOr([]) else current
  }
}
