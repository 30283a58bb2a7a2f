/** The barber dashboard: the barber's statistics, the three agenda views and the confirm action. */
module BarberDashboard {
  import opened Wrappers
  import opened Entities
  import opened Seqs
  import opened FrontendTypes
  import BookingEngine

  /** The `stats` object. */
  datatype BarberStats = BarberStats(today: nat, upcoming: nat, completed: nat, total: nat, revenue: nat)

  /** The agenda tabs. */
  datatype ViewMode = TodayView | UpcomingView | AllView

  /** Dated today and not cancelled. */
  function TodayActive(today: Date): BookingView -> bool
  {
    (b: BookingView) => b.bookingDate == today && b.status != "CANCELLED"
  }

  /** The statistics, with lists that have not arrived counting as empty. */
  function ComputeStats(all: Option<seq<BookingView>>, upcoming: Option<seq<BookingView>>, today: Date): BarberStats
  {
    var bs := match all case None => [] case Some(s) => s;
    var up := match upcoming case None => [] case Some(s) => s;
    BarberStats(
      |Filter(bs, TodayActive(today))|,
      |up|,
      |Filter(bs, HasStatus("COMPLETED"))|,
      |bs|,
      TotalPrice(Filter(bs, HasStatus("COMPLETED"))))
  }

  /** The sort key of the today view: hours * 60 + minutes read from the time string (a string that does
      not read as a time counts as minute 0). */
  function TimeKey(b: BookingView): int
  {
    match ClockMinutes(b.bookingTime) case Some(m) => m case None => 0
  }

  /** `getFilteredBookings`. */
  function GetFilteredBookings(all: Option<seq<BookingView>>, upcoming: Option<seq<BookingView>>,
                               mode: ViewMode, today: Date): seq<BookingView>
  {
    match all
    case None => []
    case Some(bs) =>
      match mode
      case TodayView => SortBy(Filter(bs, TodayActive(today)), TimeKey)
      case UpcomingView => (match upcoming case None => [] case Some(up) => up)
      case AllView => bs
  }

  /** The today view is a reordering of today's non-cancelled bookings, ascending by time of day. */
  lemma TodayViewIsSortedSelection(bookings: seq<BookingView>, upcoming: Option<seq<BookingView>>, today: Date)
    ensures var r := GetFilteredBookings(Some(bookings), upcoming, TodayView, today);
      && multiset(r) == multiset(Filter(bookings, TodayActive(today)))
      && SortedBy(r, TimeKey)
      && (forall b :: b in r <==> b in bookings && b.bookingDate == today && b.status != "CANCELLED")
  {
    var sel := Filter(bookings, TodayActive(today));
    var r := SortBy(sel, TimeKey);
    forall b ensures b in r <==> b in sel {
      assert b in r <==> b in multiset(r);
    }
  }

  /** For bookings as the server sends them, the sort key is the booking's minute of the day. */
  lemma TimeKeyOfServerBooking(e: Booking)
    ensures TimeKey(ToView(e)) == e.bookingTime
  {
  }

  /** The upcoming tab shows the server's upcoming list and the all tab the barber's whole list, both
      unchanged; nothing is shown while the barber's list has not arrived. */
  lemma OtherViewsPassThrough(all: Option<seq<BookingView>>, upcoming: Option<seq<BookingView>>, today: Date)
    ensures all.None? ==> forall m: ViewMode :: GetFilteredBookings(all, upcoming, m, today) == []
    ensures all.Some? ==> GetFilteredBookings(all, upcoming, AllView, today) == all.value
    ensures all.Some? && upcoming.Some? ==> GetFilteredBookings(all, upcoming, UpcomingView, today) == upcoming.value
    ensures all.Some? && upcoming.None? ==> GetFilteredBookings(all, upcoming, UpcomingView, today) == []
  {
  }

  /** The today count is the length of the today view. */
  lemma TodayCountMatchesTodayView(bookings: seq<BookingView>, upcoming: Option<seq<BookingView>>, today: Date)
    ensures ComputeStats(Some(bookings), upcoming, today).today == |GetFilteredBookings(Some(bookings), upcoming, TodayView, today)|
  {
  }

  /** Only COMPLETED bookings earn: the barber's revenue is at most the admin revenue over the same
      list, which counts everything not cancelled, and the completed count is at most the total. */
  lemma RevenueCountsCompletedOnly(bookings: seq<BookingView>, upcoming: Option<seq<BookingView>>, today: Date)
    ensures ComputeStats(Some(bookings), upcoming, today).revenue <= TotalPrice(Filter(bookings, StatusIsNot("CANCELLED")))
    ensures ComputeStats(Some(bookings), upcoming, today).completed <= ComputeStats(Some(bookings), upcoming, today).total
    ensures (forall k :: 0 <= k < |bookings| ==> bookings[k].status != "COMPLETED") ==>
      ComputeStats(Some(bookings), upcoming, today).revenue == 0
  {
    TotalPriceFilterMonotone(bookings, HasStatus("COMPLETED"), StatusIsNot("CANCELLED"));
    if forall k :: 0 <= k < |bookings| ==> bookings[k].status != "COMPLETED" {
      FilterRejectingAll(bookings, HasStatus("COMPLETED"));
    }
  }

  /** The confirm button is shown on a booking. */
  predicate ShowConfirm(b: BookingView)
  {
    b.status == "PENDING"
  }

  /** On a booking assigned to the barber, the button is shown exactly when the server would accept
      the confirmation. */
  lemma ConfirmShownExactlyWhenServerAccepts(e: Booking, barberId: Id)
    requires e.barberId == Some(barberId)
    ensures ShowConfirm(ToView(e)) <==> BookingEngine.Attempt(BookingEngine.BarberConfirm, barberId, e).Ok?
  {
    BookingEngine.ConfirmRule(barberId, e);
  }
}
