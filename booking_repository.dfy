/** The queries of `BookingRepository`: conflict predicates and ordered listings over the bookings table. */
module BookingRepository {
  import opened Wrappers
  import opened Entities
  import opened Seqs

  /** The position of a booking's slot on the timeline: `ORDER BY bookingDate, bookingTime`. */
  function SlotKey(b: Booking): int
  {
    b.bookingDate * 1440 + b.bookingTime
  }

  /** The descending order key: `ORDER BY bookingDate DESC, bookingTime DESC`. */
  function ReverseSlotKey(b: Booking): int
  {
    -SlotKey(b)
  }

  /** The time-only key of `findByBookingDateOrderByBookingTime`. */
  function TimeKey(b: Booking): int
  {
    b.bookingTime
  }

  /** `a` is not later than `b`, comparing date first and then time. */
  predicate NotAfter(a: Booking, b: Booking)
  {
    a.bookingDate < b.bookingDate || (a.bookingDate == b.bookingDate && a.bookingTime <= b.bookingTime)
  }

  /** The numeric slot key orders bookings exactly as the (date, time) comparison does. */
  lemma SlotKeyOrdersChronologically(a: Booking, b: Booking)
    ensures SlotKey(a) <= SlotKey(b) <==> NotAfter(a, b)
  {
    if a.bookingDate < b.bookingDate {
      assert a.bookingDate * 1440 + 1440 <= b.bookingDate * 1440;
    } else if a.bookingDate > b.bookingDate {
      assert b.bookingDate * 1440 + 1440 <= a.bookingDate * 1440;
    }
  }

  /** `JpaRepository.findById`: the position of the booking with this id, if any. */
  function FindById(bookings: seq<Booking>, id: Id): Option<nat>
  {
    FirstIndex(bookings, (b: Booking) => b.id, id)
  }

  /** The booking holds its slot: same date and time and not cancelled. */
  predicate Occupies(b: Booking, date: Date, time: MinuteOfDay)
  {
    b.bookingDate == date && b.bookingTime == time && b.status != Cancelled
  }

  function OccupiesSlot(date: Date, time: MinuteOfDay): Booking -> bool
  {
    (b: Booking) => Occupies(b, date, time)
  }

  function BarberOccupies(barberId: Id, date: Date, time: MinuteOfDay): Booking -> bool
  {
    (b: Booking) => b.barberId == Some(barberId) && Occupies(b, date, time)
  }

  function ClientOccupies(userId: Id, date: Date, time: MinuteOfDay): Booking -> bool
  {
    (b: Booking) => b.userId == userId && Occupies(b, date, time)
  }

  /** `findConflictingBookings`: every booking in the slot whose status is not CANCELLED. */
  function FindConflictingBookings(bookings: seq<Booking>, date: Date, time: MinuteOfDay): (r: seq<Booking>)
    ensures forall b :: b in r <==>
      b in bookings && b.bookingDate == date && b.bookingTime == time && b.status != Cancelled
    ensures IsSubsequence(r, bookings)
  {
    FilterIsSubsequence(bookings, OccupiesSlot(date, time));
    Filter(bookings, OccupiesSlot(date, time))
  }

  /** `findConflictingBookingsForBarber`: the barber's bookings in the slot whose status is not CANCELLED. */
  function FindConflictingBookingsForBarber(bookings: seq<Booking>, barberId: Id, date: Date, time: MinuteOfDay): (r: seq<Booking>)
    ensures forall b :: b in r <==>
      b in bookings && b.barberId == Some(barberId) && b.bookingDate == date && b.bookingTime == time && b.status != Cancelled
    ensures IsSubsequence(r, bookings)
  {
    FilterIsSubsequence(bookings, BarberOccupies(barberId, date, time));
    Filter(bookings, BarberOccupies(barberId, date, time))
  }

  /** The client-side conflict query `createBooking` calls. `BookingRepository` does not declare it;
      this is the barber query with the barber replaced by the booking's owner. */
  function FindConflictingBookingsForClient(bookings: seq<Booking>, userId: Id, date: Date, time: MinuteOfDay): (r: seq<Booking>)
    ensures forall b :: b in r <==>
      b in bookings && b.userId == userId && b.bookingDate == date && b.bookingTime == time && b.status != Cancelled
    ensures IsSubsequence(r, bookings)
  {
    FilterIsSubsequence(bookings, ClientOccupies(userId, date, time));
    Filter(bookings, ClientOccupies(userId, date, time))
  }

  /** The statuses `IN ('PENDING', 'CONFIRMED')`. */
  predicate IsOpen(s: Status)
  {
    s == Pending || s == Confirmed
  }

  function OwnedBy(userId: Id): Booking -> bool
  {
    (b: Booking) => b.userId == userId
  }

  function AssignedTo(barberId: Id): Booking -> bool
  {
    (b: Booking) => b.barberId == Some(barberId)
  }

  function OpenOwnedBy(userId: Id): Booking -> bool
  {
    (b: Booking) => b.userId == userId && IsOpen(b.status)
  }

  function OpenAssignedTo(barberId: Id): Booking -> bool
  {
    (b: Booking) => b.barberId == Some(barberId) && IsOpen(b.status)
  }

  function OnDate(date: Date): Booking -> bool
  {
    (b: Booking) => b.bookingDate == date
  }

  /** A listing in ascending (date, time) order. */
  ghost predicate Chronological(r: seq<Booking>)
  {
    forall i, j :: 0 <= i < j < |r| ==> NotAfter(r[i], r[j])
  }

  /** A listing in descending (date, time) order. */
  ghost predicate ReverseChronological(r: seq<Booking>)
  {
    forall i, j :: 0 <= i < j < |r| ==> NotAfter(r[j], r[i])
  }

  lemma SortedBySlotKeyIsChronological(r: seq<Booking>)
    requires SortedBy(r, SlotKey)
    ensures Chronological(r)
  {
    forall i, j | 0 <= i < j < |r| ensures NotAfter(r[i], r[j]) {
      SlotKeyOrdersChronologically(r[i], r[j]);
    }
  }

  lemma SortedByReverseSlotKeyIsReverseChronological(r: seq<Booking>)
    requires SortedBy(r, ReverseSlotKey)
    ensures ReverseChronological(r)
  {
    forall i, j | 0 <= i < j < |r| ensures NotAfter(r[j], r[i]) {
      assert ReverseSlotKey(r[i]) <= ReverseSlotKey(r[j]);
      SlotKeyOrdersChronologically(r[j], r[i]);
    }
  }

  /** `findByUserIdOrderByBookingDateDescBookingTimeDesc`: all of the user's bookings, latest first. */
  function FindByUserIdDesc(bookings: seq<Booking>, userId: Id): (r: seq<Booking>)
    ensures multiset(r) == multiset(Filter(bookings, OwnedBy(userId)))
    ensures forall b :: b in r <==> b in bookings && b.userId == userId
    ensures ReverseChronological(r)
  {
    var r := SortBy(Filter(bookings, OwnedBy(userId)), ReverseSlotKey);
    SortedByReverseSlotKeyIsReverseChronological(r);
    SameMultisetSameMembers(r, Filter(bookings, OwnedBy(userId)));
    r
  }

  /** `findByBarberIdOrderByBookingDateDescBookingTimeDesc`: all bookings assigned to the barber, latest first. */
  function FindByBarberIdDesc(bookings: seq<Booking>, barberId: Id): (r: seq<Booking>)
    ensures multiset(r) == multiset(Filter(bookings, AssignedTo(barberId)))
    ensures forall b :: b in r <==> b in bookings && b.barberId == Some(barberId)
    ensures ReverseChronological(r)
  {
    var r := SortBy(Filter(bookings, AssignedTo(barberId)), ReverseSlotKey);
    SortedByReverseSlotKeyIsReverseChronological(r);
    SameMultisetSameMembers(r, Filter(bookings, AssignedTo(barberId)));
    r
  }

  /** `findAllOrderByBookingDateDescBookingTimeDesc`: the whole table, latest first. */
  function FindAllDesc(bookings: seq<Booking>): (r: seq<Booking>)
    ensures multiset(r) == multiset(bookings)
    ensures ReverseChronological(r)
  {
    var r := SortBy(bookings, ReverseSlotKey);
    SortedByReverseSlotKeyIsReverseChronological(r);
    r
  }

  /** `findUpcomingBookingsByUser`: the user's PENDING and CONFIRMED bookings, earliest first.
      There is no date cutoff: an open booking on a past day is still listed. */
  function FindUpcomingByUser(bookings: seq<Booking>, userId: Id): (r: seq<Booking>)
    ensures multiset(r) == multiset(Filter(bookings, OpenOwnedBy(userId)))
    ensures forall b :: b in r <==> b in bookings && b.userId == userId && (b.status == Pending || b.status == Confirmed)
    ensures Chronological(r)
  {
    var r := SortBy(Filter(bookings, OpenOwnedBy(userId)), SlotKey);
    SortedBySlotKeyIsChronological(r);
    SameMultisetSameMembers(r, Filter(bookings, OpenOwnedBy(userId)));
    r
  }

  /** `findUpcomingBookingsByBarber`: the barber's PENDING and CONFIRMED bookings, earliest first, no date cutoff. */
  function FindUpcomingByBarber(bookings: seq<Booking>, barberId: Id): (r: seq<Booking>)
    ensures multiset(r) == multiset(Filter(bookings, OpenAssignedTo(barberId)))
    ensures forall b :: b in r <==> b in bookings && b.barberId == Some(barberId) && (b.status == Pending || b.status == Confirmed)
    ensures Chronological(r)
  {
    var r := SortBy(Filter(bookings, OpenAssignedTo(barberId)), SlotKey);
    SortedBySlotKeyIsChronological(r);
    SameMultisetSameMembers(r, Filter(bookings, OpenAssignedTo(barberId)));
    r
  }

  /** `findByBookingDateOrderByBookingTime`: the bookings of one day, in ascending time. */
  function FindByBookingDate(bookings: seq<Booking>, date: Date): (r: seq<Booking>)
    ensures multiset(r) == multiset(Filter(bookings, OnDate(date)))
    ensures forall b :: b in r <==> b in bookings && b.bookingDate == date
    ensures forall i, j :: 0 <= i < j < |r| ==> r[i].bookingTime <= r[j].bookingTime
  {
    var r := SortBy(Filter(bookings, OnDate(date)), TimeKey);
    forall i, j | 0 <= i < j < |r| ensures r[i].bookingTime <= r[j].bookingTime {
      assert TimeKey(r[i]) <= TimeKey(r[j]);
    }
    SameMultisetSameMembers(r, Filter(bookings, OnDate(date)));
    r
  }

  /** Every booking the barber conflict query returns also holds the slot globally. */
  lemma BarberConflictsAreSlotConflicts(bookings: seq<Booking>, barberId: Id, date: Date, time: MinuteOfDay)
    ensures forall b :: b in FindConflictingBookingsForBarber(bookings, barberId, date, time) ==>
      b in FindConflictingBookings(bookings, date, time)
  {
  }
}
