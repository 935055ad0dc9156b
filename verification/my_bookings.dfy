/**
 * The "my bookings" screen: the fetched bookings, a single expanded card,
 * the actions an expanded card offers by status, and cancellation.
 */
module MyBookings {
  import opened Common

  /** Booking statuses. */
  const Pending := 0
  const Confirmed := 1
  const Cancelled := 2
  const Completed := 3

  const CancelPrompt := "Вы уверены, что хотите отменить это бронирование?"
  const CancelledNotice := "Бронирование успешно отменено"
  const CancelFailedNotice := "Не удалось отменить бронирование"

  datatype BookedRoom = BookedRoom(roomId: int, roomName: string)

  /** A booking as fetched; dates and the creation time stay the strings the API sent. */
  datatype Booking = Booking(
    id: int,
    rooms: seq<BookedRoom>,
    startDate: string,
    endDate: string,
    duration: string,
    totalPrice: int,
    status: int,
    createdAt: string)

  /** `STATUS_INFO[status]?.text`: the badge text, absent for an unknown status. */
  function StatusText(status: int): (r: Option<string>)
    ensures r.Some? <==> Pending <= status <= Completed
  {
    match status
    case 0 => Some("Ожидает подтверждения")
    case 1 => Some("Подтверждено")
    case 2 => Some("Отменено")
    case 3 => Some("Завершено")
    case _ => None
  }

  datatype BookingAction = ViewRoom(roomId: int) | MessageOwner | Cancel | Review

  /**
   * What an expanded booking card offers: a link to its first room when it
   * has one, a message button always, cancel while pending or confirmed,
   * and a review link once completed.
   */
  function ExpandedActions(b: Booking): (r: set<BookingAction>)
    ensures Cancel in r <==> b.status == Pending || b.status == Confirmed
    ensures Review in r <==> b.status == Completed
    ensures MessageOwner in r
    ensures |b.rooms| > 0 ==> ViewRoom(b.rooms[0].roomId) in r
    ensures forall id :: ViewRoom(id) in r ==> |b.rooms| > 0 && id == b.rooms[0].roomId
  {
    (if |b.rooms| > 0 then {ViewRoom(b.rooms[0].roomId)} else {})
    + {MessageOwner}
    + (if b.status == Confirmed || b.status == Pending then {Cancel} else {})
    + (if b.status == Completed then {Review} else {})
  }

  /** `bookings.map(b => b.id === id ? { ...b, status } : b)`. */
  function WithStatus(bookings: seq<Booking>, id: int, status: int): (r: seq<Booking>)
    ensures |r| == |bookings|
    ensures forall i :: 0 <= i < |bookings| ==>
      r[i] == if bookings[i].id == id then bookings[i].(status := status) else bookings[i]
  {
    MapWhere(bookings, (b: Booking) => b.id == id, (b: Booking) => b.(status := status))
  }

  /** `toggleBookingDetails`: collapse the expanded booking, or expand another one. */
  function ToggledExpansion(current: Option<int>, id: int): (r: Option<int>)
    ensures r == Some(id) <==> current != Some(id)
    ensures r.None? <==> current == Some(id)
  {
    if current == Some(id) then None else Some(id)
  }

  /** Expanding a card and clicking it again closes it. */
  lemma ToggleTwiceFromNone(id: int)
    ensures ToggledExpansion(ToggledExpansion(None, id), id) == None
  {
  }

  /** A cancellation asked of the user and the service. */
  datatype CancelOutcome = Declined | CallFailed | CallSucceeded

  class BookingsView {
    var bookings: seq<Booking>
    var loading: bool
    var expanded: Option<int>

    constructor ()
      ensures bookings == [] && !loading && expanded.None?
    {
      bookings := [];
      loading := false;
      expanded := None;
    }

    /** A booking card shows its details. */
    predicate IsExpanded(id: int)
      reads this
    {
      expanded == Some(id)
    }

    /** The state is one slot, so no two bookings are expanded at once. */
    lemma AtMostOneExpanded(a: int, b: int)
      requires IsExpanded(a) && IsExpanded(b)
      ensures a == b
    {
    }

    /** The mount effect: a failed fetch keeps the list. */
    method Load(fetched: Option<seq<Booking>>)
      modifies this`bookings, this`loading
      ensures bookings == if fetched.Some? then fetched.value else old(bookings)
      ensures !loading
    {
      loading := true;
      if fetched.Some? {
        bookings := fetched.value;
      }
      loading := false;
    }

    /** `toggleBookingDetails`. */
    method ToggleBookingDetails(id: int)
      modifies this`expanded
      ensures expanded == ToggledExpansion(old(expanded), id)
    {
      expanded := if expanded == Some(id) then None else Some(id);
    }

    /**
     * `handleCancelBooking`: only a confirmed and successful cancellation
     * marks the booking cancelled; the notice is the alert shown.
     */
    method HandleCancelBooking(id: int, outcome: CancelOutcome) returns (notice: Option<string>)
      modifies this`bookings
      ensures outcome.CallSucceeded? ==> bookings == WithStatus(old(bookings), id, Cancelled)
      ensures !outcome.CallSucceeded? ==> bookings == old(bookings)
      ensures notice == match outcome
        case Declined => None
        case CallFailed => Some(CancelFailedNotice)
        case CallSucceeded => Some(CancelledNotice)
    {
      notice := None;
      if !outcome.Declined? {
        if outcome.CallSucceeded? {
          bookings := WithStatus(bookings, id, Cancelled);
          notice := Some(CancelledNotice);
        } else {
          notice := Some(CancelFailedNotice);
        }
      }
    }
  }
}
