/** The order-status vocabulary shared by the customer's order history and
    the admin dashboard: the wire names of the four statuses, the Spanish
    labels and badge colours shown for a status string, and which status
    changes each screen offers. */
module OrderStatus {
  import opened Types

  /** The string stored in the status column for each status. */
  function StatusName(s: Status): string {
    match s
    case Pending => "pending"
    case Processing => "processing"
    case Delivered => "delivered"
    case Cancelled => "cancelled"
  }

  /** The status a column value names, if it names one. */
  function ParseStatus(name: string): (r: Option<Status>)
    ensures r.Some? ==> StatusName(r.value) == name
    ensures r.None? ==> forall s: Status :: StatusName(s) != name
  {
    if name == "pending" then Some(Pending)
    else if name == "processing" then Some(Processing)
    else if name == "delivered" then Some(Delivered)
    else if name == "cancelled" then Some(Cancelled)
    else None
  }

  lemma ParseStatusName(s: Status)
    ensures ParseStatus(StatusName(s)) == Some(s)
  {
  }

  /** The label shown to users for each status. */
  function Label(s: Status): string {
    match s
    case Pending => "Pendiente"
    case Processing => "Procesando"
    case Delivered => "Entregado"
    case Cancelled => "Cancelado"
  }

  /** The status-text switch: a label for the four known names, the
      string itself for anything else. */
  function StatusText(status: string): (r: string)
    ensures ParseStatus(status).Some? ==> r == Label(ParseStatus(status).value)
    ensures ParseStatus(status).None? ==> r == status
  {
    if status == "pending" then "Pendiente"
    else if status == "processing" then "Procesando"
    else if status == "delivered" then "Entregado"
    else if status == "cancelled" then "Cancelado"
    else status
  }

  /** Distinct statuses get distinct labels, so the label identifies the status. */
  lemma LabelInjective(s: Status, t: Status)
    ensures Label(s) == Label(t) ==> s == t
  {
  }

  const DefaultColor: string := "bg-gray-100 text-gray-800"

  /** The badge colour switch, with a grey default. */
  function StatusColor(status: string): (r: string)
    ensures ParseStatus(status).None? <==> r == DefaultColor
  {
    if status == "pending" then "bg-yellow-100 text-yellow-800"
    else if status == "processing" then "bg-blue-100 text-blue-800"
    else if status == "delivered" then "bg-green-100 text-green-800"
    else if status == "cancelled" then "bg-red-100 text-red-800"
    else DefaultColor
  }

  /** The four known statuses get four different colours. */
  lemma StatusColorInjective(s: Status, t: Status)
    ensures StatusColor(StatusName(s)) == StatusColor(StatusName(t)) ==> s == t
  {
  }

  /** The single status write either order screen sends. */
  datatype StatusWrite = SetStatus(orderId: string, status: Status)

  /** Whether the customer's order list shows the cancel button. */
  predicate CustomerMayCancel(s: Status) {
    s == Pending
  }

  /** The status buttons of the admin order modal, in display order: none
      once an order is delivered or cancelled. */
  function AdminChoices(s: Status): (r: seq<Status>)
    ensures |r| == 0 || |r| == 3
  {
    if s != Delivered && s != Cancelled then [Processing, Delivered, Cancelled] else []
  }

  predicate IsTerminal(s: Status) {
    s == Delivered || s == Cancelled
  }

  /** A move the customer screen can make. */
  predicate CustomerMove(from: Status, to: Status) {
    CustomerMayCancel(from) && to == Cancelled
  }

  /** A move the admin screen can make. */
  predicate AdminMove(from: Status, to: Status) {
    to in AdminChoices(from)
  }

  /** Both directions of the admin rule: from a non-terminal status exactly
      the three targets processing, delivered and cancelled are offered. */
  lemma AdminMoveIff(from: Status, to: Status)
    ensures AdminMove(from, to) <==> !IsTerminal(from) && to != Pending
  {
  }

  /** Neither screen offers any move out of a terminal status. */
  lemma TerminalHasNoMoves(from: Status, to: Status)
    requires IsTerminal(from)
    ensures !CustomerMove(from, to) && !AdminMove(from, to)
  {
  }

  /** No screen moves an order back to pending. */
  lemma NoMoveToPending(from: Status)
    ensures !CustomerMove(from, Pending) && !AdminMove(from, Pending)
  {
  }

  /** Every move the customer can make, the admin can make too. */
  lemma CustomerMoveIsAdminMove(from: Status, to: Status)
    requires CustomerMove(from, to)
    ensures AdminMove(from, to)
  {
  }

  /** The admin may skip processing: pending to delivered is offered, and
      setting processing again on a processing order is offered too. */
  lemma AdminSkipsAndRepeats()
    ensures AdminMove(Pending, Delivered) && AdminMove(Processing, Processing)
  {
  }
}
