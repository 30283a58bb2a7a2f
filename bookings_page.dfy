/** The client's bookings page: status badge colour and label, and when the cancel button shows. */
module BookingsPage {
  import opened Entities
  import opened FrontendTypes
  import BookingEngine

  /** `getStatusColor`. */
  function StatusColor(status: string): string
  {
    match status
    case "PENDING" => "bg-yellow-100 text-yellow-800"
    case "CONFIRMED" => "bg-green-100 text-green-800"
    case "CANCELLED" => "bg-red-100 text-red-800"
    case "COMPLETED" => "bg-blue-100 text-blue-800"
    case _ => "bg-gray-100 text-gray-800"
  }

  /** `getStatusLabel`. */
  function StatusLabel(status: string): string
  {
    match status
    case "PENDING" => "Pendente"
    case "CONFIRMED" => "Confirmado"
    case "CANCELLED" => "Cancelado"
    case "COMPLETED" => "Concluído"
    case _ => status
  }

  /** The cancel button is shown for a booking with this status. */
  predicate ShowCancel(status: string)
  {
    status == "PENDING" || status == "CONFIRMED"
  }

  /** The four statuses get four different colours, none of them the gray fallback, and every other
      string gets the fallback. */
  lemma StatusColorsAreDistinct(s: Status, t: Status, other: string)
    requires StatusFromName(other).None?
    ensures s != t ==> StatusColor(StatusName(s)) != StatusColor(StatusName(t))
    ensures StatusColor(StatusName(s)) != "bg-gray-100 text-gray-800"
    ensures StatusColor(other) == "bg-gray-100 text-gray-800"
  {
  }

  /** The four statuses get four different labels, and every other string is shown as it is. */
  lemma StatusLabelsAreDistinct(s: Status, t: Status, other: string)
    requires StatusFromName(other).None?
    ensures s != t ==> StatusLabel(StatusName(s)) != StatusLabel(StatusName(t))
    ensures StatusLabel(other) == other
  {
  }

  /** On the owner's booking, the cancel button is shown exactly when the server would accept the
      cancellation. */
  lemma CancelShownExactlyWhenServerAccepts(e: Booking, userId: Id)
    requires e.userId == userId
    ensures ShowCancel(ToView(e).status) <==> BookingEngine.Attempt(BookingEngine.ClientCancel, userId, e).Ok?
  {
    BookingEngine.ClientCancelRule(userId, e);
  }
}
