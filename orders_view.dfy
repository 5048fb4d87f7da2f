/** The customer's order history: loading the caller's orders, the order
    detail modal, and cancelling a pending order. Remote reads and writes
    are parameters; each handler returns the requests it sent. */
module OrdersView {
  import opened Types
  import opened OrderStatus

  /** The order-list request: rows whose owner is `userId`, newest first. */
  datatype OrderQuery = OrderQuery(userId: string, newestFirst: bool)

  /** Whether order `o` shows the cancel button in the list: exactly when
      it is pending, and then cancelling it is a customer move. */
  predicate CancelShown(o: Order): (r: bool)
    ensures r <==> o.status == Pending
    ensures r ==> CustomerMove(o.status, Cancelled)
  {
    CustomerMayCancel(o.status)
  }

  class OrdersPage {
    var orders: seq<Order>
    var loading: bool
    var selectedOrder: Option<Order>
    var orderItems: seq<OrderItem>
    var showModal: bool

    /** The screen opens with the spinner on and nothing loaded. */
    constructor ()
      ensures orders == [] && loading && selectedOrder == None && orderItems == [] && !showModal
    {
      orders := [];
      loading := true;
      selectedOrder := None;
      orderItems := [];
      showModal := false;
    }

    /** Loads the caller's orders: rows (null read as none) on success, the
        old list on failure; the spinner is off afterwards either way. */
    method FetchOrders(userId: string, response: Fetch<seq<Order>>) returns (query: OrderQuery)
      modifies this`orders, this`loading
      ensures query == OrderQuery(userId, true)
      ensures orders == Reloaded(old(orders), response)
      ensures !loading
    {
      query := OrderQuery(userId, true);
      orders := Reloaded(orders, response);
      loading := false;
    }

    /** The effect run when the signed-in user changes: orders are loaded
        only when there is a user (otherwise not even the spinner stops). */
    method OnUserChanged(user: Option<User>, response: Fetch<seq<Order>>) returns (queries: seq<OrderQuery>)
      modifies this`orders, this`loading
      ensures user.None? ==> queries == [] && orders == old(orders) && loading == old(loading)
      ensures user.Some? ==> queries == [OrderQuery(user.value.id, true)] && !loading
      ensures user.Some? ==> orders == Reloaded(old(orders), response)
    {
      if user.None? {
        queries := [];
        return;
      }
      var query := FetchOrders(user.value.id, response);
      queries := [query];
    }

    /** Opens the detail modal of `order` and shows its items when they load. */
    method HandleViewOrder(order: Order, response: Fetch<seq<OrderItem>>)
      modifies this`selectedOrder, this`showModal, this`orderItems
      ensures selectedOrder == Some(order) && showModal
      ensures orderItems == Reloaded(old(orderItems), response)
    {
      selectedOrder := Some(order);
      showModal := true;
      orderItems := Reloaded(orderItems, response);
    }

    method CloseModal()
      modifies this`showModal
      ensures !showModal
    {
      showModal := false;
    }

    /** The cancel button of order `orderId`. Declining the confirmation
        sends nothing; otherwise the one status write is sent, and only
        when it succeeds is the list reloaded. */
    method HandleCancelOrder(userId: string, orderId: string, confirmed: bool, updated: bool,
                             reload: Fetch<seq<Order>>)
      returns (writes: seq<StatusWrite>, queries: seq<OrderQuery>)
      modifies this`orders, this`loading
      ensures !confirmed ==> writes == [] && queries == []
      ensures confirmed ==> writes == [SetStatus(orderId, Cancelled)]
      ensures confirmed && updated ==> queries == [OrderQuery(userId, true)] && !loading
      ensures confirmed && updated ==> orders == Reloaded(old(orders), reload)
      ensures !(confirmed && updated) ==> queries == [] && orders == old(orders) && loading == old(loading)
    {
      writes, queries := [], [];
      if !confirmed {
        return;
      }
      writes := [SetStatus(orderId, Cancelled)];
      if updated {
        var query := FetchOrders(userId, reload);
        queries := [query];
      }
    }

    /** The cancel button of row `k` of the list, which exists only on a
        pending order: the cancel it sends is a move the customer rule
        allows, for that row's order. */
    method PressCancel(userId: string, k: nat, confirmed: bool, updated: bool, reload: Fetch<seq<Order>>)
      returns (writes: seq<StatusWrite>, queries: seq<OrderQuery>)
      requires k < |orders| && CancelShown(orders[k])
      modifies this`orders, this`loading
      ensures !confirmed ==> writes == [] && queries == [] && orders == old(orders)
      ensures confirmed ==> writes == [SetStatus(old(orders)[k].id, Cancelled)]
      ensures forall w :: w in writes ==> w.orderId == old(orders)[k].id && CustomerMove(old(orders)[k].status, w.status)
      ensures confirmed && updated ==> queries == [OrderQuery(userId, true)] && !loading
      ensures confirmed && updated ==> orders == Reloaded(old(orders), reload)
      ensures !(confirmed && updated) ==> queries == [] && orders == old(orders) && loading == old(loading)
    {
      var order := orders[k];
      writes, queries := HandleCancelOrder(userId, order.id, confirmed, updated, reload);
    }
  }

  /** The cancel button is never shown on a terminal order, the cancel it
      offers is also an admin move, and an order without the button has no
      customer move at all. */
  lemma CancelShownIff(o: Order)
    ensures CancelShown(o) ==> !IsTerminal(o.status) && AdminMove(o.status, Cancelled)
    ensures !CancelShown(o) <==> forall t: Status :: !CustomerMove(o.status, t)
  {
    if CancelShown(o) {
      CustomerMoveIsAdminMove(o.status, Cancelled);
    }
  }
}
