/** The admin dashboard's product editor and order-status controls. The
    product modal is a small machine over `showProductModal`,
    `selectedProduct` and the form: a selected product means the form edits
    it, no selection means the form creates a new one. Remote writes and
    reloads are parameters; each handler returns the write it sent. */
module AdminView {
  import opened Types
  import opened OrderStatus

  /** The product form's fields. */
  datatype ProductForm = ProductForm(
    code: string,
    name: string,
    description: string,
    price: int,
    imageUrl: string,
    active: bool)

  /** The form the dashboard opens with and resets to: empty text, active. */
  const BlankForm: ProductForm := ProductForm("", "", "", 0, "", true)

  /** The product row `id` holds after an update with `form`. */
  function ProductOf(id: string, form: ProductForm): Product {
    Product(id, form.code, form.name, form.description, form.price, form.imageUrl, form.active)
  }

  /** The form filled in from a product, for editing it: saving it unchanged
      gives back the same product. */
  function FormOf(p: Product): (form: ProductForm)
    ensures ProductOf(p.id, form) == p
  {
    ProductForm(p.code, p.name, p.description, p.price, p.imageUrl, p.active)
  }

  /** Filling the form from a product forgets only the product's id. */
  lemma FormOfInjective(p: Product, q: Product)
    ensures FormOf(p) == FormOf(q) <==> p.(id := q.id) == q
  {
    if FormOf(p) == FormOf(q) {
      assert ProductOf(q.id, FormOf(p)) == q;
    }
  }

  datatype ProductWrite =
    | UpdateProduct(id: string, data: ProductForm)
    | InsertProduct(data: ProductForm)
    | DeleteProduct(id: string)

  /** The write a form submission sends: an update of the selected product,
      or an insert when nothing is selected. */
  function SubmitWrite(selected: Option<Product>, form: ProductForm): (w: ProductWrite)
    ensures w.UpdateProduct? <==> selected.Some?
    ensures w.UpdateProduct? ==> w.id == selected.value.id
    ensures !w.DeleteProduct? && w.data == form
  {
    if selected.Some? then UpdateProduct(selected.value.id, form) else InsertProduct(form)
  }

  class AdminDashboard {
    var products: seq<Product>
    var orders: seq<Order>
    var showProductModal: bool
    var showOrderModal: bool
    var selectedProduct: Option<Product>
    var selectedOrder: Option<Order>
    var orderItems: seq<OrderItem>
    var productForm: ProductForm

    /** A closed product modal is in create mode with a blank form, and an
        open order modal always has an order to show. */
    predicate Valid()
      reads this
    {
      && (!showProductModal ==> selectedProduct == None && productForm == BlankForm)
      && (showOrderModal ==> selectedOrder.Some?)
    }

    constructor ()
      ensures Valid()
      ensures products == [] && orders == [] && orderItems == []
      ensures !showProductModal && !showOrderModal && selectedOrder == None
    {
      products, orders, orderItems := [], [], [];
      showProductModal, showOrderModal := false, false;
      selectedProduct, selectedOrder := None, None;
      productForm := BlankForm;
    }

    /** The "new product" button: opens the modal and touches nothing else,
        so from a closed modal it always opens in create mode on a blank form. */
    method OpenNewProduct()
      requires Valid()
      modifies this`showProductModal
      ensures Valid() && showProductModal
      ensures !old(showProductModal) ==> selectedProduct == None && productForm == BlankForm
    {
      showProductModal := true;
    }

    /** The close and cancel buttons of the product modal. */
    method CloseProductModal()
      requires Valid()
      modifies this`showProductModal, this`selectedProduct, this`productForm
      ensures Valid()
      ensures !showProductModal && selectedProduct == None && productForm == BlankForm
    {
      showProductModal := false;
      selectedProduct := None;
      productForm := BlankForm;
    }

    /** The edit button of product `p`. */
    method HandleEditProduct(p: Product)
      requires Valid()
      modifies this`showProductModal, this`selectedProduct, this`productForm
      ensures Valid()
      ensures showProductModal && selectedProduct == Some(p) && productForm == FormOf(p)
    {
      selectedProduct := Some(p);
      productForm := FormOf(p);
      showProductModal := true;
    }

    /** Submitting the form, which exists only while the modal is open.
        `saved` is the answer of the write, `reload` that of the product
        reload that follows a successful one. */
    method HandleProductSubmit(saved: bool, reload: Fetch<seq<Product>>) returns (write: ProductWrite)
      requires Valid() && showProductModal
      modifies this`showProductModal, this`selectedProduct, this`productForm, this`products
      ensures Valid()
      ensures write == SubmitWrite(old(selectedProduct), old(productForm))
      ensures saved ==> !showProductModal && selectedProduct == None && productForm == BlankForm
      ensures saved ==> products == Reloaded(old(products), reload)
      ensures !saved ==> showProductModal && selectedProduct == old(selectedProduct)
      ensures !saved ==> productForm == old(productForm) && products == old(products)
    {
      write := SubmitWrite(selectedProduct, productForm);
      if !saved {
        return;
      }
      showProductModal := false;
      selectedProduct := None;
      productForm := BlankForm;
      products := Reloaded(products, reload);
    }

    /** The delete button of a product: nothing is sent unless confirmed. */
    method HandleDeleteProduct(productId: string, confirmed: bool, deleted: bool, reload: Fetch<seq<Product>>)
      returns (writes: seq<ProductWrite>)
      modifies this`products
      ensures !confirmed ==> writes == []
      ensures confirmed ==> writes == [DeleteProduct(productId)]
      ensures products == if confirmed && deleted then Reloaded(old(products), reload) else old(products)
    {
      writes := [];
      if !confirmed {
        return;
      }
      writes := [DeleteProduct(productId)];
      if deleted {
        products := Reloaded(products, reload);
      }
    }

    /** Opens the order modal on `order` and shows its items when they load. */
    method HandleViewOrder(order: Order, response: Fetch<seq<OrderItem>>)
      requires Valid()
      modifies this`selectedOrder, this`showOrderModal, this`orderItems
      ensures Valid()
      ensures selectedOrder == Some(order) && showOrderModal
      ensures orderItems == Reloaded(old(orderItems), response)
    {
      selectedOrder := Some(order);
      showOrderModal := true;
      orderItems := Reloaded(orderItems, response);
    }

    /** The status write for one order; a successful one closes the order
        modal, a failed one leaves everything as it was. */
    method HandleUpdateOrderStatus(orderId: string, status: Status, updated: bool, reload: Fetch<seq<Order>>)
      returns (write: StatusWrite)
      requires Valid()
      modifies this`orders, this`showOrderModal
      ensures Valid()
      ensures write == SetStatus(orderId, status)
      ensures updated ==> !showOrderModal && orders == Reloaded(old(orders), reload)
      ensures !updated ==> showOrderModal == old(showOrderModal) && orders == old(orders)
    {
      write := SetStatus(orderId, status);
      if !updated {
        return;
      }
      orders := Reloaded(orders, reload);
      showOrderModal := false;
    }

    /** The `k`-th status button of the open order modal; the buttons are
        those `AdminChoices` gives for the shown order's status. */
    method PressStatusButton(k: nat, updated: bool, reload: Fetch<seq<Order>>) returns (write: StatusWrite)
      requires Valid() && showOrderModal
      requires k < |AdminChoices(selectedOrder.value.status)|
      modifies this`orders, this`showOrderModal
      ensures Valid()
      ensures write == SetStatus(old(selectedOrder).value.id, AdminChoices(old(selectedOrder).value.status)[k])
      ensures AdminMove(old(selectedOrder).value.status, write.status)
      ensures updated ==> !showOrderModal && orders == Reloaded(old(orders), reload)
      ensures !updated ==> showOrderModal && orders == old(orders)
    {
      var shown := selectedOrder.value;
      write := HandleUpdateOrderStatus(shown.id, AdminChoices(shown.status)[k], updated, reload);
    }
  }

  /** A button press is possible only for a non-terminal order, and then
      each of processing, delivered and cancelled has a button. */
  lemma StatusButtonsIff(s: Status, t: Status)
    ensures |AdminChoices(s)| > 0 <==> !IsTerminal(s)
    ensures !IsTerminal(s) && t != Pending ==> exists k :: 0 <= k < |AdminChoices(s)| && AdminChoices(s)[k] == t
  {
    if !IsTerminal(s) && t != Pending {
      var k := if t == Processing then 0 else if t == Delivered then 1 else 2;
      assert AdminChoices(s)[k] == t;
    }
  }

  /** Editing a product and saving the untouched form writes the product's
      own fields back to its row, so the row ends up as the product. */
  method EditThenSave(p: Product, reload: Fetch<seq<Product>>) returns (write: ProductWrite)
    ensures write == UpdateProduct(p.id, FormOf(p))
    ensures ProductOf(write.id, write.data) == p
  {
    var dashboard := new AdminDashboard();
    dashboard.HandleEditProduct(p);
    write := dashboard.HandleProductSubmit(true, reload);
  }
}
