/** The cart page: the quantity buttons of each line and the checkout,
    which turns the cart into one order record plus one order item per
    line, asks for a notification, and clears the cart. The remote store
    and the notification endpoint are not modelled: their answers are
    parameters, and each checkout returns the effects it performed, in
    order. */
module CartView {
  import opened Types
  import opened CartContext

  /** The order row the checkout inserts. */
  datatype OrderInsert = OrderInsert(orderNumber: string, userId: string, status: Status, totalAmount: int)

  /** One order-item row the checkout inserts. */
  datatype OrderItemInsert = OrderItemInsert(
    orderId: string,
    productId: string,
    quantity: int,
    unitPrice: int,
    totalPrice: int)

  datatype NotificationItem = NotificationItem(name: string, quantity: int, price: int)

  /** The body posted to the notification endpoint. */
  datatype Notification = Notification(
    orderNumber: string,
    userEmail: string,
    userName: string,
    totalAmount: int,
    items: seq<NotificationItem>)

  /** What the order insert answers: the new row's id, or an error. */
  datatype InsertOutcome = Inserted(orderId: string) | InsertFailed

  /** What the notification request ends in; none of them is fatal. */
  datatype NotifyOutcome = NotifyOk | NotifyNotOk | NotifyThrew

  /** The observable steps of a checkout. */
  datatype Effect =
    | SetLoading(on: bool)
    | InsertOrder(order: OrderInsert)
    | InsertItems(rows: seq<OrderItemInsert>)
    | Notify(message: Notification)
    | ClearCart

  datatype CheckoutOutcome = NotSignedIn | EmptyCart | OrderFailed | ItemsFailed | Placed(orderNumber: string)

  /** The order record for a cart: pending, owned by the caller, with the cart's total. */
  function OrderFor(user: User, orderNumber: string, lines: seq<CartItem>): OrderInsert {
    OrderInsert(orderNumber, user.id, Pending, TotalPrice(lines))
  }

  /** The order item for one cart line. */
  function ItemRow(orderId: string, line: CartItem): OrderItemInsert {
    OrderItemInsert(orderId, line.product.id, line.quantity, line.product.price, LineTotal(line))
  }

  /** The order items for a cart: one per line, in cart order. */
  function OrderItemsFor(orderId: string, lines: seq<CartItem>): (rows: seq<OrderItemInsert>)
    ensures |rows| == |lines|
    ensures forall i :: 0 <= i < |lines| ==> rows[i] == ItemRow(orderId, lines[i])
  {
    if |lines| == 0 then [] else [ItemRow(orderId, lines[0])] + OrderItemsFor(orderId, lines[1..])
  }

  /** Sum of the order items' totals. */
  function SumTotals(rows: seq<OrderItemInsert>): int {
    if |rows| == 0 then 0 else SumTotals(rows[..|rows| - 1]) + rows[|rows| - 1].totalPrice
  }

  /** Every item's total is its unit price times its quantity. */
  lemma ItemTotalsConsistent(orderId: string, lines: seq<CartItem>)
    ensures forall row :: row in OrderItemsFor(orderId, lines) ==>
      row.orderId == orderId && row.totalPrice == row.unitPrice * row.quantity
  {
  }

  /** The order items' totals add up to the order's total amount. */
  lemma {:induction false} ItemsSumToOrderTotal(user: User, orderNumber: string, orderId: string, lines: seq<CartItem>)
    ensures SumTotals(OrderItemsFor(orderId, lines)) == OrderFor(user, orderNumber, lines).totalAmount
    decreases |lines|
  {
    if |lines| > 0 {
      var n := |lines|;
      var rows := OrderItemsFor(orderId, lines);
      assert rows[..n - 1] == OrderItemsFor(orderId, lines[..n - 1]);
      ItemsSumToOrderTotal(user, orderNumber, orderId, lines[..n - 1]);
    }
  }

  /** The name sent with the notification: the full name unless it is null
      or empty, else the e-mail; so it is one of the two, and it is empty
      only when both are. */
  function UserName(user: User): (name: string)
    ensures name == user.email || user.fullName == Some(name)
    ensures name == "" <==> user.email == "" && (user.fullName.None? || user.fullName.value == "")
  {
    if user.fullName.Some? && user.fullName.value != "" then user.fullName.value else user.email
  }

  function NotificationFor(user: User, orderNumber: string, lines: seq<CartItem>): (n: Notification)
    ensures |n.items| == |lines|
    ensures forall i :: 0 <= i < |lines| ==>
      n.items[i] == NotificationItem(lines[i].product.name, lines[i].quantity, lines[i].product.price)
  {
    Notification(orderNumber, user.email, UserName(user), TotalPrice(lines),
      seq(|lines|, i requires 0 <= i < |lines| =>
        NotificationItem(lines[i].product.name, lines[i].quantity, lines[i].product.price)))
  }

  /** Sum of price × quantity over the notification's items. */
  function NotificationSum(items: seq<NotificationItem>): int {
    if |items| == 0 then 0 else NotificationSum(items[..|items| - 1]) + items[|items| - 1].price * items[|items| - 1].quantity
  }

  /** The notification describes the order the checkout inserted: its
      number, the buyer, a total equal to the order's and to the sum of
      its items, and one item per order row with that row's quantity and
      unit price. */
  lemma {:induction false} NotificationMatchesOrder(user: User, orderNumber: string, orderId: string, lines: seq<CartItem>)
    ensures var n := NotificationFor(user, orderNumber, lines);
      var order := OrderFor(user, orderNumber, lines);
      var rows := OrderItemsFor(orderId, lines);
      && n.orderNumber == order.orderNumber && n.userEmail == user.email && n.userName == UserName(user)
      && n.totalAmount == order.totalAmount
      && NotificationSum(n.items) == n.totalAmount
      && |n.items| == |rows|
      && forall i :: 0 <= i < |rows| ==> n.items[i].quantity == rows[i].quantity && n.items[i].price == rows[i].unitPrice
    decreases |lines|
  {
    if |lines| > 0 {
      var m := |lines| - 1;
      var n := NotificationFor(user, orderNumber, lines);
      assert n.items[..m] == NotificationFor(user, orderNumber, lines[..m]).items;
      NotificationMatchesOrder(user, orderNumber, orderId, lines[..m]);
    }
  }

  /** A run that raised the loading flag first, lowered it last, and did not touch it in between. */
  predicate LoadingBracketed(effects: seq<Effect>) {
    && |effects| >= 2
    && effects[0] == SetLoading(true)
    && effects[|effects| - 1] == SetLoading(false)
    && forall i :: 0 < i < |effects| - 1 ==> !effects[i].SetLoading?
  }

  /** The shopping-cart screen over one cart. */
  class CartPage {
    const cart: CartStore
    var loading: bool

    constructor (cart: CartStore)
      ensures this.cart == cart && !loading
    {
      this.cart := cart;
      loading := false;
    }

    /** The checkout button is disabled while a checkout is running. */
    predicate CheckoutEnabled()
      reads this
    {
      !loading
    }

    /** The minus button of line `k`. */
    method PressMinus(k: nat)
      requires k < |cart.items|
      modifies cart
      ensures cart.items == Updated(old(cart.items), old(cart.items)[k].product.id, old(cart.items)[k].quantity - 1)
    {
      var id, quantity := cart.items[k].product.id, cart.items[k].quantity - 1;
      cart.UpdateQuantity(id, quantity);
    }

    /** The plus button of line `k`. */
    method PressPlus(k: nat)
      requires k < |cart.items|
      modifies cart
      ensures cart.items == Updated(old(cart.items), old(cart.items)[k].product.id, old(cart.items)[k].quantity + 1)
    {
      var id, quantity := cart.items[k].product.id, cart.items[k].quantity + 1;
      cart.UpdateQuantity(id, quantity);
    }

    /** The trash button of line `k`. */
    method PressRemove(k: nat)
      requires k < |cart.items|
      modifies cart
      ensures cart.items == Without(old(cart.items), old(cart.items)[k].product.id)
    {
      cart.RemoveFromCart(cart.items[k].product.id);
    }

    /** The checkout. `orderInsert`, `itemsInserted` and `notify` are the
        answers of the order insert, the item insert and the notification
        request, in that order. */
    method HandleCheckout(user: Option<User>, orderNumber: string,
                          orderInsert: InsertOutcome, itemsInserted: bool, notify: NotifyOutcome)
      returns (outcome: CheckoutOutcome, effects: seq<Effect>)
      modifies this, cart
      // guards: nothing is written and nothing changes
      ensures user.None? ==> outcome == NotSignedIn
      ensures user.Some? && old(cart.items) == [] ==> outcome == EmptyCart
      ensures (user.None? || old(cart.items) == []) ==>
        effects == [] && cart.items == old(cart.items) && loading == old(loading)
      // past the guards: the writes made depend on the store's answers only
      ensures user.Some? && old(cart.items) != [] ==> LoadingBracketed(effects) && CheckoutEnabled()
      ensures user.Some? && old(cart.items) != [] && orderInsert.InsertFailed? ==>
        && outcome == OrderFailed
        && effects == [SetLoading(true), InsertOrder(OrderFor(user.value, orderNumber, old(cart.items))),
                       SetLoading(false)]
      ensures user.Some? && old(cart.items) != [] && orderInsert.Inserted? && !itemsInserted ==>
        && outcome == ItemsFailed
        && effects == [SetLoading(true), InsertOrder(OrderFor(user.value, orderNumber, old(cart.items))),
                       InsertItems(OrderItemsFor(orderInsert.orderId, old(cart.items))), SetLoading(false)]
      ensures user.Some? && old(cart.items) != [] && orderInsert.Inserted? && itemsInserted ==>
        && outcome == Placed(orderNumber)
        && effects == [SetLoading(true), InsertOrder(OrderFor(user.value, orderNumber, old(cart.items))),
                       InsertItems(OrderItemsFor(orderInsert.orderId, old(cart.items))),
                       Notify(NotificationFor(user.value, orderNumber, old(cart.items))),
                       ClearCart, SetLoading(false)]
      // the cart is emptied exactly when the checkout succeeds
      ensures cart.items == if outcome.Placed? then [] else old(cart.items)
    {
      if user.None? {
        outcome, effects := NotSignedIn, [];
        return;
      }
      if |cart.items| == 0 {
        outcome, effects := EmptyCart, [];
        return;
      }
      loading := true;
      var customer := user.value;
      var lines := cart.items;
      var order := OrderFor(customer, orderNumber, lines);
      if orderInsert.InsertFailed? {
        outcome := OrderFailed;
        effects := [SetLoading(true), InsertOrder(order), SetLoading(false)];
      } else {
        var rows := OrderItemsFor(orderInsert.orderId, lines);
        if !itemsInserted {
          outcome := ItemsFailed;
          effects := [SetLoading(true), InsertOrder(order), InsertItems(rows), SetLoading(false)];
        } else {
          // whatever `notify` is, a failed notification is only logged
          var message := NotificationFor(customer, orderNumber, lines);
          cart.ClearCart();
          outcome := Placed(orderNumber);
          effects := [SetLoading(true), InsertOrder(order), InsertItems(rows), Notify(message), ClearCart,
                      SetLoading(false)];
        }
      }
      loading := false;
    }
  }

  /** The minus button at quantity 1 drops the line and keeps the others in order. */
  lemma MinusAtOneRemoves(lines: seq<CartItem>, k: nat)
    requires Unique(lines) && k < |lines| && lines[k].quantity == 1
    ensures Updated(lines, lines[k].product.id, lines[k].quantity - 1) == lines[..k] + lines[k + 1..]
  {
    FindLineAt(lines, k);
    WithoutPresent(lines, lines[k].product.id);
  }

  /** The minus button above quantity 1, and the plus button on a positive
      line, change that one line's quantity by one. */
  lemma StepChangesOneLine(lines: seq<CartItem>, k: nat, delta: int)
    requires Unique(lines) && k < |lines| && (delta == 1 || delta == -1)
    requires lines[k].quantity + delta > 0
    ensures var r := Updated(lines, lines[k].product.id, lines[k].quantity + delta);
      && |r| == |lines|
      && r[k].quantity == lines[k].quantity + delta
      && r[k].product == lines[k].product
      && forall i :: 0 <= i < |lines| && i != k ==> r[i] == lines[i]
  {
    FindLineAt(lines, k);
    UpdatedPositive(lines, lines[k].product.id, lines[k].quantity + delta);
  }
}
