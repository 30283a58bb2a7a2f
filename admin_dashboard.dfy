/** The admin dashboard: booking statistics and the three-way booking filter. */
module AdminDashboard {
  import opened Wrappers
  import opened Entities
  import opened Seqs
  import opened FrontendTypes

  /** The `stats` object. */
  datatype AdminStats = AdminStats(
    total: nat, pending: nat, confirmed: nat, cancelled: nat, completed: nat,
    today: nat, thisWeek: nat, revenue: nat)

  /** The week that starts on `weekStart`, first and last day included. */
  predicate InWeek(d: Date, weekStart: Date)
  {
    weekStart <= d <= weekStart + 6
  }

  function DatedOn(day: Date): BookingView -> bool
  {
    (b: BookingView) => b.bookingDate == day
  }

  function DatedInWeek(weekStart: Date): BookingView -> bool
  {
    (b: BookingView) => InWeek(b.bookingDate, weekStart)
  }

  /** The statistics of the loaded bookings; a list that has not arrived counts as empty. */
  function ComputeStats(bookings: Option<seq<BookingView>>, today: Date, weekStart: Date): AdminStats
  {
    var bs := match bookings case None => [] case Some(s) => s;
    AdminStats(
      |bs|,
      |Filter(bs, HasStatus("PENDING"))|,
      |Filter(bs, HasStatus("CONFIRMED"))|,
      |Filter(bs, HasStatus("CANCELLED"))|,
      |Filter(bs, HasStatus("COMPLETED"))|,
      |Filter(bs, DatedOn(today))|,
      |Filter(bs, DatedInWeek(weekStart))|,
      TotalPrice(Filter(bs, StatusIsNot("CANCELLED"))))
  }

  /** No bookings, or none loaded yet, give all-zero statistics. */
  lemma StatsOfNoBookings(today: Date, weekStart: Date)
    ensures ComputeStats(None, today, weekStart) == AdminStats(0, 0, 0, 0, 0, 0, 0, 0)
    ensures ComputeStats(Some([]), today, weekStart) == AdminStats(0, 0, 0, 0, 0, 0, 0, 0)
  {
  }

  /** `total` is the number of bookings. */
  lemma TotalIsBookingCount(bookings: seq<BookingView>, today: Date, weekStart: Date)
    ensures ComputeStats(Some(bookings), today, weekStart).total == |bookings|
  {
  }

  predicate IsKnownStatus(s: string)
  {
    s == "PENDING" || s == "CONFIRMED" || s == "CANCELLED" || s == "COMPLETED"
  }

  /** When every status is one of the four, the four status counts add up to `total`. */
  lemma {:induction false} StatusCountsSumToTotal(bookings: seq<BookingView>)
    requires forall k :: 0 <= k < |bookings| ==> IsKnownStatus(bookings[k].status)
    ensures |Filter(bookings, HasStatus("PENDING"))| + |Filter(bookings, HasStatus("CONFIRMED"))|
      + |Filter(bookings, HasStatus("CANCELLED"))| + |Filter(bookings, HasStatus("COMPLETED"))| == |bookings|
    decreases |bookings|
  {
    if bookings != [] {
      var b := bookings[0];
      StatusCountsSumToTotal(bookings[1..]);
      FilterCons(bookings, HasStatus("PENDING"));
      FilterCons(bookings, HasStatus("CONFIRMED"));
      FilterCons(bookings, HasStatus("CANCELLED"));
      FilterCons(bookings, HasStatus("COMPLETED"));
      KnownStatusesAreDistinct(b.status);
    }
  }

  /** A known status is exactly one of the four. */
  lemma KnownStatusesAreDistinct(st: string)
    requires IsKnownStatus(st)
    ensures (if st == "PENDING" then 1 else 0) + (if st == "CONFIRMED" then 1 else 0)
      + (if st == "CANCELLED" then 1 else 0) + (if st == "COMPLETED" then 1 else 0) == 1
  {
    assert "PENDING"[0] == 'P' && "CONFIRMED"[0] == 'C' && "CANCELLED"[0] == 'C' && "COMPLETED"[0] == 'C';
    assert "CONFIRMED"[1] == 'O' && "CANCELLED"[1] == 'A' && "COMPLETED"[1] == 'O';
    assert "CONFIRMED"[2] == 'N' && "COMPLETED"[2] == 'M';
  }

  /** The revenue plus the prices of the cancelled bookings is the price of everything booked: exactly
      the cancelled bookings are left out. */
  lemma {:induction false} RevenueSplitsOnCancelled(bookings: seq<BookingView>)
    ensures TotalPrice(Filter(bookings, StatusIsNot("CANCELLED"))) + TotalPrice(Filter(bookings, HasStatus("CANCELLED"))) == TotalPrice(bookings)
    decreases |bookings|
  {
    if bookings != [] {
      RevenueSplitsOnCancelled(bookings[1..]);
    }
  }

  /** When today lies in the reference week, the today count is at most the week count. */
  lemma TodayWithinWeek(bookings: seq<BookingView>, today: Date, weekStart: Date)
    requires InWeek(today, weekStart)
    ensures ComputeStats(Some(bookings), today, weekStart).today <= ComputeStats(Some(bookings), today, weekStart).thisWeek
  {
    FilterLengthMonotone(bookings, DatedOn(today), DatedInWeek(weekStart));
  }

  // ---------------------------------------------------------------------------------------------
  // The booking filter

  /** `toLowerCase` on ASCII letters. */
  function ToLower(s: string): (r: string)
    ensures |r| == |s|
  {
    seq(|s|, i requires 0 <= i < |s| => if 'A' <= s[i] <= 'Z' then (s[i] as int + 32) as char else s[i])
  }

  /** `t` occurs in `s` starting at index `i`. */
  predicate OccursAt(s: string, t: string, i: nat)
  {
    i + |t| <= |s| && s[i..i + |t|] == t
  }

  /** `s.includes(t)`. */
  function Contains(s: string, t: string): bool
    decreases |s|
  {
    if OccursAt(s, t, 0) then true
    else if s == [] then false
    else Contains(s[1..], t)
  }

  /** `Contains` finds an occurrence exactly when there is one. */
  lemma {:induction false} ContainsIffOccurs(s: string, t: string)
    ensures Contains(s, t) <==> exists i: nat :: OccursAt(s, t, i)
    decreases |s|
  {
    if !OccursAt(s, t, 0) && s != [] {
      ContainsIffOccurs(s[1..], t);
      forall i: nat ensures OccursAt(s[1..], t, i) <==> OccursAt(s, t, i + 1) {
        if i + 1 + |t| <= |s| {
          assert s[1..][i..i + |t|] == s[i + 1..i + 1 + |t|];
        }
      }
      if Contains(s, t) {
        var i: nat :| OccursAt(s[1..], t, i);
        assert OccursAt(s, t, i + 1);
      } else {
        forall i: nat ensures !OccursAt(s, t, i) {
          if i > 0 {
            assert !OccursAt(s[1..], t, i - 1);
          }
        }
      }
    } else if OccursAt(s, t, 0) {
      assert OccursAt(s, t, 0);
    } else {
      forall i: nat ensures !OccursAt(s, t, i) {
      }
    }
  }

  /** The filter, with the page's early returns: status, then search term, then date. */
  function Matches(statusFilter: string, searchTerm: string, dateFilter: string, today: Date, weekStart: Date): BookingView -> bool
  {
    (b: BookingView) =>
      if statusFilter != "ALL" && b.status != statusFilter then false
      else if searchTerm != "" && !Contains(ToLower(b.service.name), ToLower(searchTerm)) then false
      else if dateFilter == "TODAY" then b.bookingDate == today
      else if dateFilter == "WEEK" then InWeek(b.bookingDate, weekStart)
      else true
  }

  /** The date condition on its own: TODAY, WEEK, or anything else for no restriction. */
  predicate DateCondition(dateFilter: string, d: Date, today: Date, weekStart: Date)
  {
    (dateFilter == "TODAY" ==> d == today) && (dateFilter == "WEEK" ==> InWeek(d, weekStart))
  }

  /** A booking passes exactly when all three conditions hold. */
  lemma FilterIsThreeWayConjunction(statusFilter: string, searchTerm: string, dateFilter: string,
                                    today: Date, weekStart: Date, b: BookingView)
    ensures Matches(statusFilter, searchTerm, dateFilter, today, weekStart)(b) <==>
      && (statusFilter == "ALL" || b.status == statusFilter)
      && Contains(ToLower(b.service.name), ToLower(searchTerm))
      && DateCondition(dateFilter, b.bookingDate, today, weekStart)
  {
    if searchTerm == "" {
      assert OccursAt(ToLower(b.service.name), ToLower(searchTerm), 0);
    }
  }

  /** `filteredBookings`; a list that has not arrived gives the empty list. */
  function FilteredBookings(bookings: Option<seq<BookingView>>, statusFilter: string, searchTerm: string,
                            dateFilter: string, today: Date, weekStart: Date): seq<BookingView>
  {
    match bookings
    case None => []
    case Some(bs) => Filter(bs, Matches(statusFilter, searchTerm, dateFilter, today, weekStart))
  }

  /** The filtered list keeps the input's order and holds exactly the matching bookings. */
  lemma FilteredIsOrderedSubset(bookings: seq<BookingView>, statusFilter: string, searchTerm: string,
                                dateFilter: string, today: Date, weekStart: Date)
    ensures var r := FilteredBookings(Some(bookings), statusFilter, searchTerm, dateFilter, today, weekStart);
      && IsSubsequence(r, bookings)
      && forall b :: b in r <==> b in bookings && Matches(statusFilter, searchTerm, dateFilter, today, weekStart)(b)
  {
    FilterIsSubsequence(bookings, Matches(statusFilter, searchTerm, dateFilter, today, weekStart));
  }

  /** The initial filter settings (ALL, empty search, ALL) show every booking. */
  lemma InitialFilterShowsAll(bookings: seq<BookingView>, today: Date, weekStart: Date)
    ensures FilteredBookings(Some(bookings), "ALL", "", "ALL", today, weekStart) == bookings
  {
    FilterKeepsAll(bookings, Matches("ALL", "", "ALL", today, weekStart));
  }
}
