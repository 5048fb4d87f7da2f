# Storefront cart, checkout and order-status model

A Dafny model of the client side of a small tourism-package storefront. It covers four parts:

- **The cart engine** (`CartContext`). The cart is an ordered list of `{product, quantity}` lines. Adding a product merges into its existing line or appends a new line. Removing filters the line out. Updating sets the quantity in place, or removes the line when the new quantity is not positive. Clearing empties the list. Two folds give the item count and the price total.
- **The cart page** (`CartView`). It has the minus, plus and trash buttons of each line, and the checkout. The checkout inserts one order record, then one order item per line. It then asks for a notification and clears the cart.
- **The customer's order history** (`OrdersView`). It loads the caller's orders, shows an order's details, and cancels a pending order.
- **The admin dashboard** (`AdminView`). It has the create/edit/close machine of the product modal, product deletion, and the order-status buttons.

`Types` holds the records, which follow the repository's type declarations. `OrderStatus` holds the status vocabulary used by both order screens: the wire names, the Spanish labels, the badge colours, and which status changes each screen offers. The label and colour switches appear word for word in both `src/pages/Orders.tsx` and `src/pages/AdminDashboard.tsx`, so they are modelled once.

The lists the cart context hands to its state setter (`find`, `map`, `filter`) are modelled as functions over `seq<CartItem>`. The state cell itself is the class `CartStore`, whose methods replace `items`. The screens are classes whose fields are the screens' state variables.

The remote data platform is not modelled. Each of its answers is a parameter: the new order's id or an insert error, a success flag for every other write, and `Fetch` (rows, null, or an error) for every read. The same goes for the browser's confirmation dialog (a boolean) and the order number (a string the caller supplies). Each handler returns the writes it sends, in order; the checkout returns all its effects, and the order-history handlers also return the list queries they send. The reads of an order's items (both order modals) and the admin screen's reloads are not returned: their answers are parameters, and the contracts say what each answer leaves on screen. Prices and quantities are integers; a price is a number of cents.

Points where the code behaves differently from what a reader might expect:

- **Error reporting.** The two checkout guards (no user, empty cart) just return with a message. Both write failures show the same message. `CheckoutOutcome` tells the four paths apart so that the contract can say what each one did.
- **Status changes.** The admin screen offers processing, delivered and cancelled from any status that is neither delivered nor cancelled. That includes pending → delivered, and processing → processing (`OrderStatus.AdminSkipsAndRepeats`). The customer screen offers only pending → cancelled.
- **Quantities.** `addToCart` does not check its amount, so a line can hold a non-positive quantity if one is passed in. The model proves positivity is preserved only when the added amount is positive.
- **Concurrent checkouts.** While `loading` is set only the checkout button is disabled; `handleCheckout` itself does not check the flag.
- **Loading with no user.** With no signed-in user, the order history never loads, and its `loading` flag stays on.

## Model

| member | source | states |
|---|---|---|
| OrderStatus.ParseStatus | src/types/database.ts:70 | a column value names a status exactly when it is that status's wire name; otherwise no status has that name |
| OrderStatus.ParseStatusName | src/types/database.ts:70 | parsing the wire name of a status gives back that status (round trip) |
| OrderStatus.StatusText | src/pages/Orders.tsx:100-113 | each of the four wire names maps to its label (Pendiente, Procesando, Entregado, Cancelado); any other string comes back unchanged |
| OrderStatus.LabelInjective | src/pages/AdminDashboard.tsx:210-223 | the admin copy of the same mapping gives different statuses different labels |
| OrderStatus.StatusColor | src/pages/Orders.tsx:85-98 | the colour is grey exactly when the string names no known status |
| OrderStatus.StatusColorInjective | src/pages/AdminDashboard.tsx:195-208 | the four statuses get four different colours |
| OrderStatus.AdminChoices | src/pages/AdminDashboard.tsx:579-598 | the order modal shows either no status buttons or all three |
| OrderStatus.AdminMoveIff | src/pages/AdminDashboard.tsx:579-598 | the admin may move an order to a status exactly when the current status is neither delivered nor cancelled and the target is processing, delivered or cancelled |
| OrderStatus.TerminalHasNoMoves | src/pages/AdminDashboard.tsx:579 | neither screen offers a move out of delivered or cancelled |
| OrderStatus.NoMoveToPending | src/pages/AdminDashboard.tsx:582-598 | neither screen moves an order back to pending |
| OrderStatus.CustomerMoveIsAdminMove | src/pages/Orders.tsx:166 | every move the customer can make (pending to cancelled), the admin can make too |
| OrderStatus.AdminSkipsAndRepeats | src/pages/AdminDashboard.tsx:582-598 | pending → delivered and processing → processing are both offered to the admin |
| CartContext.FindLine | src/contexts/CartContext.tsx:47 | the result is the index of the first line with the product's id, or none exactly when no line has that id |
| CartContext.FindLineAt | src/contexts/CartContext.tsx:47 | when ids are unique, the lookup for line k's id finds k |
| CartContext.Merged | src/contexts/CartContext.tsx:51-55 | the merge keeps the length; each line with the id gains the amount and keeps its product snapshot; every other line is unchanged |
| CartContext.WithQuantity | src/contexts/CartContext.tsx:74-80 | the in-place update keeps the length; each line with the id gets the new quantity; every other line is unchanged |
| CartContext.Without | src/contexts/CartContext.tsx:64 | the filter leaves no line with the id and never lengthens the cart |
| CartContext.WithoutMembers | src/contexts/CartContext.tsx:64 | a line survives the filter exactly when it was in the cart and has another id |
| CartContext.WithoutConcat | src/contexts/CartContext.tsx:64 | the filter works line by line: filtering a concatenation is concatenating the filtered parts |
| CartContext.UniqueTail | src/contexts/CartContext.tsx:63-64 | dropping the first line keeps product ids unique |
| CartContext.Added | src/contexts/CartContext.tsx:45-58 | after an add the product has a line; a line is appended only when the product had none |
| CartContext.Updated | src/contexts/CartContext.tsx:68-81 | after an update the product has a line exactly when it had one and the quantity is positive; a positive update keeps the length |
| CartContext.TotalItemsAtLeastLines | src/contexts/CartContext.tsx:88-90 | the item count (`getTotalItems`) is at least the number of lines when every quantity is positive |
| CartContext.TotalPriceNonNegative | src/contexts/CartContext.tsx:92-94 | the price total (`getTotalPrice`) is never negative when no price and no quantity is |
| CartContext.TotalsConcat | src/contexts/CartContext.tsx:88-94 | both folds add up over concatenated carts |
| CartContext.TotalsSplit | src/contexts/CartContext.tsx:88-94 | each total is the part before line k, plus line k's share, plus the part after |
| CartContext.TotalsReplaceAt | src/contexts/CartContext.tsx:88-94 | carts that differ only in line k differ in their totals by exactly that line's difference |
| CartContext.TotalsExample | src/contexts/CartContext.tsx:88-94 | lines (price 100, qty 2) and (price 50, qty 1) give 3 items and a total of 250 |
| CartContext.AddedExisting | src/contexts/CartContext.tsx:47-55 | adding a product already in the cart adds no line, raises that line's quantity by the amount, keeps its product snapshot, and leaves every other line unchanged |
| CartContext.AddedNew | src/contexts/CartContext.tsx:56-58 | adding a product not in the cart appends exactly the line {product, amount} at the end |
| CartContext.AddedKeepsUnique | src/contexts/CartContext.tsx:47-58 | adding never creates two lines with the same product id |
| CartContext.AddedKeepsPositive | src/contexts/CartContext.tsx:45-58 | with a positive amount, adding keeps every quantity positive |
| CartContext.MergedAbsent | src/contexts/CartContext.tsx:51-55 | merging into a cart without the id changes nothing |
| CartContext.AddedTotals | src/contexts/CartContext.tsx:45-58 | adding raises the item count by the amount, and the price total by the amount times the price held in the line (the existing line's snapshot when merging) |
| CartContext.MergedTotals | src/contexts/CartContext.tsx:92-94 | raising one line by an amount raises the item count by that amount and the price total by its price times the amount |
| CartContext.AddedTwice | src/contexts/CartContext.tsx:45-58 | adding a new product with n and then with m leaves one line for it, with quantity n + m |
| CartContext.AddAllDistinct | src/contexts/CartContext.tsx:45-58 | adding distinct new products one after another appends one line per product, in order; the item count grows by the sum of the amounts |
| CartContext.WithoutAbsent | src/contexts/CartContext.tsx:63-64 | removing an id not in the cart leaves the cart unchanged |
| CartContext.WithoutAt | src/contexts/CartContext.tsx:63-64 | when only line k has the id, removal gives the lines before k followed by the lines after k |
| CartContext.WithoutPresent | src/contexts/CartContext.tsx:63-64 | removing an id present at index k gives the cart without index k, with the others in their original order |
| CartContext.WithoutSpec | src/contexts/CartContext.tsx:63-64 | after removal there is no line for the id; an absent id is a no-op; a present one drops exactly its line |
| CartContext.WithoutKeepsUnique | src/contexts/CartContext.tsx:63-64 | removal keeps product ids unique |
| CartContext.WithoutKeepsPositive | src/contexts/CartContext.tsx:63-64 | removal keeps quantities positive |
| CartContext.WithoutTotals | src/contexts/CartContext.tsx:63-64 | removing a line lowers the item count by its quantity and the price total by its price × quantity |
| CartContext.UpdatedNonPositive | src/contexts/CartContext.tsx:68-72 | updating to a quantity ≤ 0 is exactly removing the line |
| CartContext.UpdatedPositive | src/contexts/CartContext.tsx:74-80 | updating to a positive quantity keeps the length and order, sets only the matching line's quantity, and keeps its product |
| CartContext.UpdatedAbsent | src/contexts/CartContext.tsx:68-81 | updating an unknown id is a no-op, whatever the quantity |
| CartContext.UpdatedKeepsUnique | src/contexts/CartContext.tsx:68-81 | updates keep product ids unique |
| CartContext.UpdatedKeepsPositive | src/contexts/CartContext.tsx:68-81 | updates keep every quantity positive, because non-positive quantities remove the line |
| CartContext.UpdatedTotals | src/contexts/CartContext.tsx:74-80 | a positive update moves the totals by the change in that one line |
| CartContext.CartStore.constructor | src/contexts/CartContext.tsx:26 | the cart starts empty |
| CartContext.CartStore.AddToCart | src/contexts/CartContext.tsx:45-61 | reports whether it merged; appends {product, quantity} when the product is new; otherwise raises only that line; keeps ids unique; keeps quantities positive when the quantity added is positive; the quantity defaults to 1 |
| CartContext.CartStore.RemoveFromCart | src/contexts/CartContext.tsx:63-66 | the new cart has no line for the id; the other lines keep their order; an absent id leaves the cart unchanged |
| CartContext.CartStore.UpdateQuantity | src/contexts/CartContext.tsx:68-81 | quantity ≤ 0 removes the line; otherwise only the matching line's quantity changes and the length stays the same; an unknown id is a no-op; ids stay unique and quantities positive |
| CartContext.CartStore.ClearCart | src/contexts/CartContext.tsx:83-86 | the cart is empty and both totals are 0, whatever it held before, so clearing twice is the same as clearing once |
| CartView.OrderItemsFor | src/pages/Cart.tsx:46-52 | one order item per cart line, in cart order; each carries the order id, the line's product id and quantity, unit price = product price, and total = price × quantity |
| CartView.ItemTotalsConsistent | src/pages/Cart.tsx:46-52 | every built item belongs to the order and has total_price = unit_price × quantity |
| CartView.ItemsSumToOrderTotal | src/pages/Cart.tsx:29-52 | the items' total prices add up to the order's total_amount |
| CartView.NotificationFor | src/pages/Cart.tsx:68-78 | builds the request body; its own contract only lists the items line by line, and what the body means (number, buyer, total, items matching the order rows) is stated by NotificationMatchesOrder |
| CartView.NotificationMatchesOrder | src/pages/Cart.tsx:29-78 | the notification carries the order's number, the buyer's e-mail and name, and the order's total; its items' price × quantity sum to that total, and each item has the quantity and unit price of the matching order row |
| CartView.UserName | src/pages/Cart.tsx:71 | the name sent is the full name or the e-mail, and it is empty only when both are |
| CartView.CartPage.constructor | src/pages/Cart.tsx:11 | the page starts with loading off |
| CartView.CartPage.PressMinus | src/pages/Cart.tsx:141 | the minus button updates its line to quantity − 1 |
| CartView.CartPage.PressPlus | src/pages/Cart.tsx:148 | the plus button updates its line to quantity + 1 |
| CartView.CartPage.PressRemove | src/pages/Cart.tsx:159 | the trash button removes its line |
| CartView.CartPage.HandleCheckout | src/pages/Cart.tsx:13-96 | with no user or an empty cart nothing is written and nothing changes; otherwise loading goes on first and off last, and the button is enabled again afterwards. The order write (pending, the caller's id, the cart's total) comes first; if it fails no item write is tried. If the item write fails, the order stays without items. Both failures leave the cart as it was. The notification is sent and the cart cleared exactly when both writes succeed, whatever the notification's answer |
| CartView.MinusAtOneRemoves | src/pages/Cart.tsx:141 | pressing minus at quantity 1 drops that line and keeps the others in order |
| CartView.StepChangesOneLine | src/pages/Cart.tsx:141-148 | minus above 1, or plus on a positive line, changes only that line's quantity, by one |
| OrdersView.OrdersPage.constructor | src/pages/Orders.tsx:10-14 | the screen starts with no orders, the spinner on, and the modal closed |
| OrdersView.OrdersPage.FetchOrders | src/pages/Orders.tsx:22-38 | the query asks for the caller's orders, newest first; on success, the rows (null read as none) replace the list; on failure the list stays; the spinner is off afterwards |
| OrdersView.OrdersPage.OnUserChanged | src/pages/Orders.tsx:16-20 | orders are queried only when a user is signed in |
| OrdersView.OrdersPage.HandleViewOrder | src/pages/Orders.tsx:40-62 | the modal opens on the order and shows its items once they load |
| OrdersView.OrdersPage.CloseModal | src/pages/Orders.tsx:190-192 | the detail modal is closed |
| OrdersView.OrdersPage.HandleCancelOrder | src/pages/Orders.tsx:64-83 | if the user declines, nothing is written; otherwise the only write sets that one order to cancelled, and the list is reloaded only after the write succeeds, which turns the spinner off |
| OrdersView.CancelShown | src/pages/Orders.tsx:166 | the button guard itself (the order is pending); what it guarantees is stated by PressCancel (the write it allows is a customer move) and CancelShownIff |
| OrdersView.OrdersPage.PressCancel | src/pages/Orders.tsx:166-171 | the cancel button of row k exists only on a pending order; if the user declines nothing is sent; otherwise the one write cancels that row's order and is a move the customer rule allows; the list is reloaded only after it succeeds, which turns the spinner off |
| OrdersView.CancelShownIff | src/pages/Orders.tsx:166 | the button is never shown on a delivered or cancelled order; its cancel is also an admin move; an order without the button has no customer move at all |
| AdminView.SubmitWrite | src/pages/AdminDashboard.tsx:103-120 | submitting sends an update of the selected product's row when one is selected, and an insert otherwise, with the form's fields |
| Types.Reloaded | src/pages/AdminDashboard.tsx:48-56 | a successful read puts its rows on screen, a null answer empties the list, and a failed read keeps the rows already shown (the same in src/pages/Orders.tsx:24-31) |
| AdminView.FormOf | src/pages/AdminDashboard.tsx:139-148 | the form filled in for editing holds the product's fields, so saving it unchanged writes back that same product |
| AdminView.FormOfInjective | src/pages/AdminDashboard.tsx:139-148 | two products fill in the same form exactly when they differ at most in their id |
| AdminView.AdminDashboard.constructor | src/pages/AdminDashboard.tsx:8-27 | both modals start closed; nothing is selected; the form is blank with active = true |
| AdminView.AdminDashboard.OpenNewProduct | src/pages/AdminDashboard.tsx:282 | opening from a closed modal always starts create mode on a blank form |
| AdminView.AdminDashboard.CloseProductModal | src/pages/AdminDashboard.tsx:417-430 | closing clears the selection and resets the form |
| AdminView.AdminDashboard.HandleEditProduct | src/pages/AdminDashboard.tsx:139-150 | edit copies the product's fields into the form, selects the product and opens the modal |
| AdminView.AdminDashboard.HandleProductSubmit | src/pages/AdminDashboard.tsx:94-137 | sends the update or insert; after a successful save the modal is closed, the selection cleared, the form blank and the products reloaded; after a failed one nothing changes |
| AdminView.AdminDashboard.HandleDeleteProduct | src/pages/AdminDashboard.tsx:152-170 | if the user declines, nothing is written; otherwise the only write deletes that product's row, and the list is reloaded only after it succeeds |
| AdminView.AdminDashboard.HandleViewOrder | src/pages/AdminDashboard.tsx:172-176 | the order modal opens on the order and shows its items once they load |
| AdminView.AdminDashboard.HandleUpdateOrderStatus | src/pages/AdminDashboard.tsx:178-193 | writes the status to that one order; success reloads the orders and closes the modal; failure changes nothing |
| AdminView.AdminDashboard.PressStatusButton | src/pages/AdminDashboard.tsx:579-598 | button k writes the k-th of processing, delivered, cancelled to the shown order, a move the admin rule allows; success reloads the orders and closes the modal; failure leaves the modal open and the orders as they were |
| AdminView.StatusButtonsIff | src/pages/AdminDashboard.tsx:579-598 | buttons are shown exactly for non-terminal orders, and then each of processing, delivered and cancelled has one |
| AdminView.EditThenSave | src/pages/AdminDashboard.tsx:103-149 | editing a product and saving the untouched form writes that product's own fields back to its row, so the row ends up as the product |

## Left out

- Persistence of the cart to the browser's local storage, and reloading it with JSON parsing (src/contexts/CartContext.tsx:29-43). This is I/O, and the loaded data is not validated.
- The toast messages, `console.error` logging, JSX rendering, image fallbacks and the product list's tab switch. None of them changes the modelled state. `AddToCart` returns which branch it took; that is the only thing the toast choice depends on.
- The confirmation dialog is a boolean parameter.
- The order number comes from the clock (`Date.now()`); here it is a string the caller passes in.
- The remote data platform is not modelled: its tables, its row-level authorization, and how it evaluates a query (filtering by owner, ordering by `created_at`). It is replaced by its answers, passed as parameters.
- OrdersView.OrdersPage.FetchOrders: the returned query records the owner filter and the newest-first order. The contract does not prove that the loaded rows belong to the user or are sorted: the backend does that work, and it is not modelled.
- The admin dashboard's initial `fetchData` (it runs three reads concurrently with `Promise.all`), the settings tab, and the e-mail settings read. They are concurrent I/O and display only.
- The notification endpoint (supabase/functions/send-order-notification/index.ts) is not part of this model. It is HTTP plumbing plus HTML templating, and it only logs. The checkout models only the request it receives, and the fact that the request's outcome is ignored.
- JavaScript floating-point numbers are not modelled. Prices and quantities are integers, so the exact-total properties assume integer prices. The form's price is an integer field as well: the `toString`/`parseFloat` round trip of the text input is not modelled. The blank form's empty price text is modelled as 0.
- The handlers run as if each one finished before the next began. The code does not await its reloads after a cancel, a status update, a product save or a delete; the model treats each reload as finishing before the handler returns. The customer's reload after a cancel catches its own error and turns the spinner off, as `FetchOrders` states. The admin reloads do not catch: a failing one is an unhandled promise rejection, modelled as leaving the list unchanged. While a checkout is running, `loading` is on; the model records this as the order of the `SetLoading` effects around the remote calls.
- The product form's field setters (src/pages/AdminDashboard.tsx:444-510) are not modelled, so in the model the form holds either the blank form or a product's fields. The submit contract holds for any form, so nothing it states depends on this.
- Rendering-only files (src/pages/Home.tsx, src/components/ProductCard.tsx, src/components/Navbar.tsx) are not part of this model. The product card only calls `addToCart(product)` with the default quantity.
