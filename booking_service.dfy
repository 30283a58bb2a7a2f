/** `BookingService`: booking creation with barber assignment, and the role-gated status transitions. */
module BookingEngine {
  import opened Wrappers
  import opened Entities
  import opened Seqs
  import opened BookingRepository
  import Barbers

  /** `CreateBookingRequest`, after its fields are parsed: `barberId` is the barber TABLE id
      (absent when the client left the choice to the system). */
  datatype CreateBookingRequest = CreateBookingRequest(
    serviceId: Id,
    bookingDate: Date,
    bookingTime: MinuteOfDay,
    barberId: Option<Id>,
    notes: Option<string>)

  /** The exceptions the service throws, one per message. */
  datatype BookingError =
    | ServiceNotFound
    | DateInPast
    | ClientSlotTaken
    | BarberNotFound
    | BarberInactive
    | BarberSlotTaken
    | NoBarberAvailable
    | BookingNotFound
    | NotOwner
    | NotAssignedBarber
    | StatusForbids(current: Status)

  // ---------------------------------------------------------------------------------------------
  // Date checks

  /** The service-level check: the date is not before today (today itself is allowed). */
  predicate NotInPast(date: Date, today: Date)
  {
    !(date < today)
  }

  /** The `@Future` constraint on the request's date: strictly after today. */
  predicate IsFuture(date: Date, today: Date)
  {
    date > today
  }

  /** The request annotation is strictly stronger than the service check: they differ exactly on today. */
  lemma FutureIsStricterThanNotInPast(date: Date, today: Date)
    ensures IsFuture(date, today) ==> NotInPast(date, today)
    ensures NotInPast(date, today) && !IsFuture(date, today) <==> date == today
  {
  }

  // ---------------------------------------------------------------------------------------------
  // Barber assignment

  /** `serviceRepository.findById`: the first catalog entry with this id. */
  function FindService(services: seq<Service>, id: Id): (r: Option<Service>)
    ensures r.Some? ==> r.value in services && r.value.id == id
    ensures r.None? <==> forall s :: s in services ==> s.id != id
    decreases |services|
  {
    if services == [] then None
    else if services[0].id == id then Some(services[0])
    else FindService(services[1..], id)
  }

  /** The barber (by user id) has no non-cancelled booking in the slot. */
  predicate IsFree(bookings: seq<Booking>, barberUserId: Id, date: Date, time: MinuteOfDay)
  {
    FindConflictingBookingsForBarber(bookings, barberUserId, date, time) == []
  }

  lemma IsFreeMeansNoBookingInSlot(bookings: seq<Booking>, barberUserId: Id, date: Date, time: MinuteOfDay)
    ensures IsFree(bookings, barberUserId, date, time) <==>
      forall b :: b in bookings && b.barberId == Some(barberUserId) ==> !Occupies(b, date, time)
  {
    var r := FindConflictingBookingsForBarber(bookings, barberUserId, date, time);
    if r != [] {
      assert r[0] in r;
    }
  }

  /** What `findAvailableBarber` returns: the user id of the first barber of the list that is free. */
  function FirstFreeBarber(candidates: seq<Barber>, bookings: seq<Booking>, date: Date, time: MinuteOfDay): Option<Id>
    decreases |candidates|
  {
    if candidates == [] then None
    else if IsFree(bookings, candidates[0].userId, date, time) then Some(candidates[0].userId)
    else FirstFreeBarber(candidates[1..], bookings, date, time)
  }

  /** Position `k` holds a free barber and every barber before it is busy. */
  predicate FirstFreeAt(candidates: seq<Barber>, bookings: seq<Booking>, date: Date, time: MinuteOfDay, k: int)
  {
    0 <= k < |candidates| && IsFree(bookings, candidates[k].userId, date, time)
    && forall j :: 0 <= j < k ==> !IsFree(bookings, candidates[j].userId, date, time)
  }

  /** The chosen barber is free and every barber before it in the list is busy; nothing is chosen
      exactly when the list is empty or every barber in it is busy. */
  lemma {:induction false} FirstFreeBarberIsFirstFree(candidates: seq<Barber>, bookings: seq<Booking>, date: Date, time: MinuteOfDay)
    ensures FirstFreeBarber(candidates, bookings, date, time).Some? ==>
      exists k :: FirstFreeAt(candidates, bookings, date, time, k)
        && candidates[k].userId == FirstFreeBarber(candidates, bookings, date, time).value
    ensures FirstFreeBarber(candidates, bookings, date, time).None? <==>
      forall k :: 0 <= k < |candidates| ==> !IsFree(bookings, candidates[k].userId, date, time)
    decreases |candidates|
  {
    if candidates != [] {
      var tail := candidates[1..];
      FirstFreeBarberIsFirstFree(tail, bookings, date, time);
      if IsFree(bookings, candidates[0].userId, date, time) {
        assert FirstFreeAt(candidates, bookings, date, time, 0);
      } else {
        assert FirstFreeBarber(candidates, bookings, date, time) == FirstFreeBarber(tail, bookings, date, time);
        if FirstFreeBarber(tail, bookings, date, time).Some? {
          var k :| FirstFreeAt(tail, bookings, date, time, k)
            && tail[k].userId == FirstFreeBarber(tail, bookings, date, time).value;
          forall j | 0 <= j < k + 1 ensures !IsFree(bookings, candidates[j].userId, date, time) {
            if j > 0 { assert candidates[j] == tail[j - 1]; }
          }
          assert candidates[k + 1] == tail[k];
          assert FirstFreeAt(candidates, bookings, date, time, k + 1);
        } else {
          forall j | 0 <= j < |candidates| ensures !IsFree(bookings, candidates[j].userId, date, time) {
            if j > 0 { assert candidates[j] == tail[j - 1]; }
          }
        }
      }
    }
  }

  /** Auto-assignment picks an active barber of the table that holds no booking in the slot. */
  lemma AutoAssignedBarberIsActiveAndFree(barbers: seq<Barber>, bookings: seq<Booking>, date: Date, time: MinuteOfDay)
    requires FirstFreeBarber(Barbers.ListActive(barbers), bookings, date, time).Some?
    ensures exists b :: (b in barbers && b.active
      && b.userId == FirstFreeBarber(Barbers.ListActive(barbers), bookings, date, time).value
      && IsFree(bookings, b.userId, date, time))
  {
    var active := Barbers.ListActive(barbers);
    FirstFreeBarberIsFirstFree(active, bookings, date, time);
    var k :| FirstFreeAt(active, bookings, date, time, k)
      && active[k].userId == FirstFreeBarber(active, bookings, date, time).value;
    assert active[k] in active;
  }

  /** The barber a creation request ends up with: the requested one if it exists, is active and is
      free, or else the first free active barber. */
  function ResolveBarber(bookings: seq<Booking>, barbers: seq<Barber>, req: CreateBookingRequest): Result<Id, BookingError>
  {
    match req.barberId
    case Some(tableId) =>
      (match Barbers.FindBarber(barbers, tableId)
       case None => Err(BarberNotFound)
       case Some(barber) =>
         if !barber.active then Err(BarberInactive)
         else if !IsFree(bookings, barber.userId, req.bookingDate, req.bookingTime) then Err(BarberSlotTaken)
         else Ok(barber.userId))
    case None =>
      match FirstFreeBarber(Barbers.ListActive(barbers), bookings, req.bookingDate, req.bookingTime)
      case None => Err(NoBarberAvailable)
      case Some(barberUserId) => Ok(barberUserId)
  }

  /** The outcome of `createBooking` on a given table, catalog and barber list: the checks in the
      source's order, then the new PENDING booking with id `newId`. */
  function PlanBooking(bookings: seq<Booking>, services: seq<Service>, barbers: seq<Barber>,
                       userId: Id, req: CreateBookingRequest, today: Date, newId: Id): Result<Booking, BookingError>
  {
    match FindService(services, req.serviceId)
    case None => Err(ServiceNotFound)
    case Some(service) =>
      if !NotInPast(req.bookingDate, today) then Err(DateInPast)
      else if FindConflictingBookingsForClient(bookings, userId, req.bookingDate, req.bookingTime) != [] then Err(ClientSlotTaken)
      else match ResolveBarber(bookings, barbers, req)
        case Err(e) => Err(e)
        case Ok(barberUserId) =>
          Ok(Booking(newId, userId, service, Some(barberUserId), req.bookingDate, req.bookingTime, DefaultStatus, req.notes))
  }

  /** An unknown service id fails first, before any other check. */
  lemma UnknownServiceIsRejected(bookings: seq<Booking>, services: seq<Service>, barbers: seq<Barber>,
                                 userId: Id, req: CreateBookingRequest, today: Date, newId: Id)
    requires forall s :: s in services ==> s.id != req.serviceId
    ensures PlanBooking(bookings, services, barbers, userId, req, today, newId) == Err(ServiceNotFound)
  {
  }

  /** With a known service, the date check fails exactly for days strictly before today. */
  lemma PastDateIsRejectedTodayIsNot(bookings: seq<Booking>, services: seq<Service>, barbers: seq<Barber>,
                                     userId: Id, req: CreateBookingRequest, today: Date, newId: Id)
    requires FindService(services, req.serviceId).Some?
    ensures PlanBooking(bookings, services, barbers, userId, req, today, newId) == Err(DateInPast) <==> req.bookingDate < today
  {
  }

  /** Past the service and date checks, creation fails with the client error exactly when the client
      already holds the slot with a booking that is not cancelled. */
  lemma ClientConflictIsRejected(bookings: seq<Booking>, services: seq<Service>, barbers: seq<Barber>,
                                 userId: Id, req: CreateBookingRequest, today: Date, newId: Id)
    requires FindService(services, req.serviceId).Some? && NotInPast(req.bookingDate, today)
    ensures PlanBooking(bookings, services, barbers, userId, req, today, newId) == Err(ClientSlotTaken) <==>
      exists b :: b in bookings && b.userId == userId && Occupies(b, req.bookingDate, req.bookingTime)
  {
    var c := FindConflictingBookingsForClient(bookings, userId, req.bookingDate, req.bookingTime);
    if c != [] {
      assert c[0] in c;
    }
  }

  /** The service's `active` flag plays no part: swapping in a deactivated copy of the service changes
      no decision. */
  lemma ServiceActiveFlagIsNotChecked(bookings: seq<Booking>, services: seq<Service>, barbers: seq<Barber>,
                                      userId: Id, req: CreateBookingRequest, today: Date, newId: Id, i: nat)
    requires i < |services| && services[i].id == req.serviceId
    requires forall k :: 0 <= k < i ==> services[k].id != req.serviceId
    ensures var off := services[i := services[i].(active := false)];
      && PlanBooking(bookings, services, barbers, userId, req, today, newId).Ok? == PlanBooking(bookings, off, barbers, userId, req, today, newId).Ok?
      && (PlanBooking(bookings, services, barbers, userId, req, today, newId).Err? ==>
          PlanBooking(bookings, services, barbers, userId, req, today, newId) == PlanBooking(bookings, off, barbers, userId, req, today, newId))
  {
    var off := services[i := services[i].(active := false)];
    FindServiceAt(services, req.serviceId, i);
    FindServiceAt(off, req.serviceId, i);
  }

  lemma {:induction false} FindServiceAt(services: seq<Service>, id: Id, i: nat)
    requires i < |services| && services[i].id == id
    requires forall k :: 0 <= k < i ==> services[k].id != id
    ensures FindService(services, id) == Some(services[i])
    decreases i
  {
    if i > 0 {
      FindServiceAt(services[1..], id, i - 1);
    }
  }

  /** With a requested barber, creation succeeds only if that barber exists, is active and is free
      in the slot; the booking then carries the barber's USER id. */
  lemma RequestedBarberOutcome(bookings: seq<Booking>, services: seq<Service>, barbers: seq<Barber>,
                               userId: Id, req: CreateBookingRequest, today: Date, newId: Id)
    requires req.barberId.Some?
    requires FindService(services, req.serviceId).Some? && NotInPast(req.bookingDate, today)
    requires FindConflictingBookingsForClient(bookings, userId, req.bookingDate, req.bookingTime) == []
    ensures var r := PlanBooking(bookings, services, barbers, userId, req, today, newId);
      match Barbers.FindBarber(barbers, req.barberId.value)
      case None => r == Err(BarberNotFound)
      case Some(barber) =>
        if !barber.active then r == Err(BarberInactive)
        else if exists b :: b in bookings && b.barberId == Some(barber.userId) && Occupies(b, req.bookingDate, req.bookingTime)
        then r == Err(BarberSlotTaken)
        else r.Ok? && r.value.barberId == Some(barber.userId)
  {
    match Barbers.FindBarber(barbers, req.barberId.value)
    case None =>
    case Some(barber) =>
      IsFreeMeansNoBookingInSlot(bookings, barber.userId, req.bookingDate, req.bookingTime);
  }

  /** Without a requested barber, the booking gets the first free active barber, and creation fails
      (rather than leaving the booking unassigned) when there is none. */
  lemma AutoAssignmentOutcome(bookings: seq<Booking>, services: seq<Service>, barbers: seq<Barber>,
                              userId: Id, req: CreateBookingRequest, today: Date, newId: Id)
    requires req.barberId.None?
    requires FindService(services, req.serviceId).Some? && NotInPast(req.bookingDate, today)
    requires FindConflictingBookingsForClient(bookings, userId, req.bookingDate, req.bookingTime) == []
    ensures var r := PlanBooking(bookings, services, barbers, userId, req, today, newId);
      var active := Barbers.ListActive(barbers);
      && (r == Err(NoBarberAvailable) <==>
          forall k :: 0 <= k < |active| ==> !IsFree(bookings, active[k].userId, req.bookingDate, req.bookingTime))
      && (r.Ok? ==> r.value.barberId == FirstFreeBarber(active, bookings, req.bookingDate, req.bookingTime))
  {
    FirstFreeBarberIsFirstFree(Barbers.ListActive(barbers), bookings, req.bookingDate, req.bookingTime);
  }

  /** A created booking is PENDING, has the new id, belongs to the caller, carries the request's
      service, date, time and notes, and always has a barber. */
  lemma CreatedBookingFields(bookings: seq<Booking>, services: seq<Service>, barbers: seq<Barber>,
                             userId: Id, req: CreateBookingRequest, today: Date, newId: Id)
    requires PlanBooking(bookings, services, barbers, userId, req, today, newId).Ok?
    ensures var b := PlanBooking(bookings, services, barbers, userId, req, today, newId).value;
      && b.status == Pending && b.id == newId && b.userId == userId
      && Some(b.service) == FindService(services, req.serviceId) && b.service.id == req.serviceId
      && b.bookingDate == req.bookingDate && b.bookingTime == req.bookingTime && b.notes == req.notes
      && b.barberId.Some?
      && NotInPast(b.bookingDate, today)
  {
  }

  // ---------------------------------------------------------------------------------------------
  // Slot exclusivity, the invariant the conflict checks maintain

  /** Two bookings of the same barber in the same slot, neither cancelled. */
  predicate BarberClash(a: Booking, b: Booking)
  {
    a.barberId.Some? && a.barberId == b.barberId && a.bookingDate == b.bookingDate && a.bookingTime == b.bookingTime
    && a.status != Cancelled && b.status != Cancelled
  }

  /** Two bookings of the same client in the same slot, neither cancelled. */
  predicate ClientClash(a: Booking, b: Booking)
  {
    a.userId == b.userId && a.bookingDate == b.bookingDate && a.bookingTime == b.bookingTime
    && a.status != Cancelled && b.status != Cancelled
  }

  /** No barber and no client is booked twice in a slot. */
  ghost predicate SlotsExclusive(bookings: seq<Booking>)
  {
    forall i, j :: 0 <= i < j < |bookings| ==> !BarberClash(bookings[i], bookings[j]) && !ClientClash(bookings[i], bookings[j])
  }

  /** A planned booking is for the caller's slot, its barber is free there and the caller holds no
      open booking there. */
  lemma PlannedSlotIsFree(bookings: seq<Booking>, services: seq<Service>, barbers: seq<Barber>,
                          userId: Id, req: CreateBookingRequest, today: Date, newId: Id)
    requires PlanBooking(bookings, services, barbers, userId, req, today, newId).Ok?
    ensures var nb := PlanBooking(bookings, services, barbers, userId, req, today, newId).value;
      && nb.userId == userId && nb.bookingDate == req.bookingDate && nb.bookingTime == req.bookingTime
      && nb.barberId.Some? && IsFree(bookings, nb.barberId.value, req.bookingDate, req.bookingTime)
      && FindConflictingBookingsForClient(bookings, userId, req.bookingDate, req.bookingTime) == []
  {
    match req.barberId
    case Some(tableId) =>
    case None =>
      FirstFreeBarberIsFirstFree(Barbers.ListActive(barbers), bookings, req.bookingDate, req.bookingTime);
  }

  /** Appending a booking that clashes with none of the table keeps the table free of double bookings. */
  lemma AppendKeepsSlotsExclusive(bookings: seq<Booking>, nb: Booking)
    requires SlotsExclusive(bookings)
    requires forall k :: 0 <= k < |bookings| ==> !BarberClash(bookings[k], nb) && !ClientClash(bookings[k], nb)
    ensures SlotsExclusive(bookings + [nb])
  {
    var after := bookings + [nb];
    forall i, j | 0 <= i < j < |after| ensures !BarberClash(after[i], after[j]) && !ClientClash(after[i], after[j]) {
      if j == |bookings| {
        assert after[j] == nb && after[i] == bookings[i];
      } else {
        assert after[i] == bookings[i] && after[j] == bookings[j];
      }
    }
  }

  /** A successful creation keeps the table free of double bookings. */
  lemma CreatedBookingKeepsSlotsExclusive(bookings: seq<Booking>, services: seq<Service>, barbers: seq<Barber>,
                                          userId: Id, req: CreateBookingRequest, today: Date, newId: Id)
    requires SlotsExclusive(bookings)
    requires PlanBooking(bookings, services, barbers, userId, req, today, newId).Ok?
    ensures SlotsExclusive(bookings + [PlanBooking(bookings, services, barbers, userId, req, today, newId).value])
  {
    var nb := PlanBooking(bookings, services, barbers, userId, req, today, newId).value;
    var date, time := req.bookingDate, req.bookingTime;
    PlannedSlotIsFree(bookings, services, barbers, userId, req, today, newId);
    IsFreeMeansNoBookingInSlot(bookings, nb.barberId.value, date, time);
    var c := FindConflictingBookingsForClient(bookings, userId, date, time);
    forall k | 0 <= k < |bookings| ensures !BarberClash(bookings[k], nb) && !ClientClash(bookings[k], nb) {
      assert bookings[k] in bookings && bookings[k] !in c;
    }
    AppendKeepsSlotsExclusive(bookings, nb);
  }

  /** Replacing one booking by a copy whose status is not re-opened from CANCELLED keeps the table
      free of double bookings. */
  lemma StatusChangeKeepsSlotsExclusive(bookings: seq<Booking>, i: nat, s: Status)
    requires SlotsExclusive(bookings) && i < |bookings|
    requires s != Cancelled ==> bookings[i].status != Cancelled
    ensures SlotsExclusive(bookings[i := bookings[i].(status := s)])
  {
    var after := bookings[i := bookings[i].(status := s)];
    forall a, b | 0 <= a < b < |after| ensures !BarberClash(after[a], after[b]) && !ClientClash(after[a], after[b]) {
      assert !BarberClash(bookings[a], bookings[b]) && !ClientClash(bookings[a], bookings[b]);
    }
  }

  /** Removing a booking keeps the table free of double bookings and its ids distinct. */
  lemma RemovalKeepsTableProperties(bookings: seq<Booking>, i: nat, bound: nat)
    requires SlotsExclusive(bookings) && i < |bookings|
    requires forall k :: 0 <= k < |bookings| ==> bookings[k].id < bound
    requires forall a, b :: 0 <= a < b < |bookings| ==> bookings[a].id != bookings[b].id
    ensures var after := bookings[..i] + bookings[i + 1..];
      && SlotsExclusive(after)
      && (forall k :: 0 <= k < |after| ==> after[k].id < bound)
      && (forall a, b :: 0 <= a < b < |after| ==> after[a].id != after[b].id)
  {
    var after := bookings[..i] + bookings[i + 1..];
    assert forall k :: 0 <= k < |after| ==> after[k] == bookings[if k < i then k else k + 1];
  }

  // ---------------------------------------------------------------------------------------------
  // Status transitions

  /** The four status-changing operations: client cancel, and barber confirm, complete and cancel. */
  datatype Transition = ClientCancel | BarberConfirm | BarberComplete | BarberCancel

  /** The status a successful transition writes. */
  function Target(t: Transition): Status
  {
    match t
    case ClientCancel => Cancelled
    case BarberConfirm => Confirmed
    case BarberComplete => Completed
    case BarberCancel => Cancelled
  }

  /** Whether the current status lets the transition through (the source's status guards). */
  predicate StatusPermits(t: Transition, s: Status)
  {
    match t
    case BarberConfirm => s != Cancelled && s != Completed && s != Confirmed
    case _ => s != Cancelled && s != Completed
  }

  /** The outcome of a transition requested by `actor` (a user id) on booking `b`: ownership or
      assignment first, then the status guards, then the status write and nothing else. */
  function Attempt(t: Transition, actor: Id, b: Booking): Result<Booking, BookingError>
  {
    if t == ClientCancel && b.userId != actor then Err(NotOwner)
    else if t != ClientCancel && b.barberId != Some(actor) then Err(NotAssignedBarber)
    else if !StatusPermits(t, b.status) then Err(StatusForbids(b.status))
    else Ok(b.(status := Target(t)))
  }

  /** The moves of the status graph the source allows. */
  predicate Step(from: Status, to: Status)
  {
    || (from == Pending && to == Confirmed)
    || (from == Pending && to == Cancelled)
    || (from == Confirmed && to == Cancelled)
    || (from == Pending && to == Completed)
    || (from == Confirmed && to == Completed)
  }

  /** A successful transition makes one move of the status graph and changes no other field. */
  lemma AttemptIsAStep(t: Transition, actor: Id, b: Booking)
    requires Attempt(t, actor, b).Ok?
    ensures Step(b.status, Attempt(t, actor, b).value.status)
    ensures Attempt(t, actor, b).value == b.(status := Attempt(t, actor, b).value.status)
  {
  }

  /** CANCELLED and COMPLETED are terminal: every transition fails on them, for every actor. */
  lemma TerminalStatusesAreFinal(t: Transition, actor: Id, b: Booking)
    requires b.status == Cancelled || b.status == Completed
    ensures Attempt(t, actor, b).Err?
  {
  }

  /** The client cancel succeeds exactly for the owner on a PENDING or CONFIRMED booking. */
  lemma ClientCancelRule(actor: Id, b: Booking)
    ensures Attempt(ClientCancel, actor, b).Ok? <==> actor == b.userId && (b.status == Pending || b.status == Confirmed)
  {
  }

  /** The barber cancel succeeds exactly for the assigned barber on a PENDING or CONFIRMED booking. */
  lemma BarberCancelRule(actor: Id, b: Booking)
    ensures Attempt(BarberCancel, actor, b).Ok? <==> b.barberId == Some(actor) && (b.status == Pending || b.status == Confirmed)
  {
  }

  /** Confirming succeeds exactly for the assigned barber on a PENDING booking. */
  lemma ConfirmRule(actor: Id, b: Booking)
    ensures Attempt(BarberConfirm, actor, b).Ok? <==> b.barberId == Some(actor) && b.status == Pending
  {
  }

  /** Completing succeeds for the assigned barber on a PENDING booking as well as on a CONFIRMED one. */
  lemma CompleteRule(actor: Id, b: Booking)
    ensures Attempt(BarberComplete, actor, b).Ok? <==> b.barberId == Some(actor) && (b.status == Pending || b.status == Confirmed)
  {
  }

  /** No role grants a transition by itself: a caller who is neither the owner nor the assigned
      barber (an admin, say) is refused every transition. */
  lemma StrangersCannotTransition(t: Transition, actor: Id, b: Booking)
    requires actor != b.userId && b.barberId != Some(actor)
    ensures Attempt(t, actor, b).Err?
  {
  }

  /** A user who asks to cancel their own booking twice in a row is refused the second time. */
  lemma SecondCancelFails(actor: Id, b: Booking)
    requires Attempt(ClientCancel, actor, b).Ok?
    ensures Attempt(ClientCancel, actor, Attempt(ClientCancel, actor, b).value) == Err(StatusForbids(Cancelled))
  {
  }

  /** The booking after a sequence of requested transitions, each applied when it succeeds. */
  function RunAll(requests: seq<(Transition, Id)>, b: Booking): Booking
    decreases |requests|
  {
    if requests == [] then b
    else
      var next := match Attempt(requests[0].0, requests[0].1, b) case Ok(b') => b' case Err(_) => b;
      RunAll(requests[1..], next)
  }

  /** Whatever sequence of requests follows, a CANCELLED or COMPLETED booking stays exactly as it is. */
  lemma {:induction false} TerminalBookingNeverChanges(requests: seq<(Transition, Id)>, b: Booking)
    requires b.status == Cancelled || b.status == Completed
    ensures RunAll(requests, b) == b
    decreases |requests|
  {
    if requests != [] {
      TerminalStatusesAreFinal(requests[0].0, requests[0].1, b);
      TerminalBookingNeverChanges(requests[1..], b);
    }
  }

  /** Along any sequence of requests, everything but the status stays fixed, and the status only moves
      forward along the graph (so it never returns to a status it left). */
  lemma {:induction false} RunAllOnlyMovesStatus(requests: seq<(Transition, Id)>, b: Booking)
    ensures RunAll(requests, b) == b.(status := RunAll(requests, b).status)
    ensures RunAll(requests, b).status == b.status || Reachable(b.status, RunAll(requests, b).status)
    decreases |requests|
  {
    if requests != [] {
      var next := match Attempt(requests[0].0, requests[0].1, b) case Ok(b') => b' case Err(_) => b;
      RunAllOnlyMovesStatus(requests[1..], next);
      if Attempt(requests[0].0, requests[0].1, b).Ok? {
        AttemptIsAStep(requests[0].0, requests[0].1, b);
      }
    }
  }

  /** `to` lies strictly after `from` in the status graph. */
  predicate Reachable(from: Status, to: Status)
  {
    Step(from, to) || (from == Pending && Step(Confirmed, to))
  }

  /** The statuses are ranked so that every move of the graph goes up: no transition sequence cycles. */
  function Rank(s: Status): nat
  {
    match s
    case Pending => 0
    case Confirmed => 1
    case Cancelled => 2
    case Completed => 2
  }

  lemma ReachableRaisesRank(from: Status, to: Status)
    requires Reachable(from, to)
    ensures Rank(from) < Rank(to)
  {
  }

  /** The table after a transition request: the booking is looked up by id, then the rule applies. */
  ghost predicate TransitionOutcome(before: seq<Booking>, after: seq<Booking>, bookingId: Id,
                                    t: Transition, actor: Id, r: Result<Booking, BookingError>)
  {
    match FindById(before, bookingId)
    case None => r == Err(BookingNotFound) && after == before
    case Some(i) =>
      r == Attempt(t, actor, before[i]) && after == (if r.Ok? then before[i := r.value] else before)
  }

  // ---------------------------------------------------------------------------------------------
  // The service over the bookings table

  class BookingService {
    /** The bookings table, in insertion order. */
    var bookings: seq<Booking>
    /** The service catalog, which this class only reads. */
    const services: seq<Service>
    /** The barber table, shared with the barber controller. */
    const barberDirectory: Barbers.BarberDirectory
    /** The next fresh booking id (stands for the generated UUID). */
    var nextId: nat

    /** Booking ids are fresh and distinct, and no barber or client is booked twice in a slot. */
    ghost predicate Valid()
      reads this
    {
      && (forall k :: 0 <= k < |bookings| ==> bookings[k].id < nextId)
      && (forall a, b :: 0 <= a < b < |bookings| ==> bookings[a].id != bookings[b].id)
      && SlotsExclusive(bookings)
    }

    constructor (services: seq<Service>, barberDirectory: Barbers.BarberDirectory)
      ensures Valid() && bookings == [] && this.services == services && this.barberDirectory == barberDirectory
    {
      this.services := services;
      this.barberDirectory := barberDirectory;
      bookings := [];
      nextId := 0;
    }

    /** `findAvailableBarber`: walks the active barbers in order and returns the first one with no
        conflicting booking in the slot. */
    method FindAvailableBarber(date: Date, time: MinuteOfDay) returns (r: Option<Id>)
      ensures r == FirstFreeBarber(Barbers.ListActive(barberDirectory.barbers), bookings, date, time)
    {
      var activeBarbers := Barbers.ListActive(barberDirectory.barbers);
      if |activeBarbers| == 0 {
        return None;
      }
      for i := 0 to |activeBarbers|
        invariant FirstFreeBarber(activeBarbers, bookings, date, time) == FirstFreeBarber(activeBarbers[i..], bookings, date, time)
      {
        assert activeBarbers[i..][1..] == activeBarbers[i + 1..];
        var conflicts := FindConflictingBookingsForBarber(bookings, activeBarbers[i].userId, date, time);
        if conflicts == [] {
          return Some(activeBarbers[i].userId);
        }
      }
      return None;
    }

    /** `createBooking`: validates the request in the source's order and stores a PENDING booking. */
    method CreateBooking(userId: Id, req: CreateBookingRequest, today: Date) returns (r: Result<Booking, BookingError>)
      requires Valid()
      modifies this
      ensures Valid()
      ensures r == PlanBooking(old(bookings), services, barberDirectory.barbers, userId, req, today, old(nextId))
      ensures r.Ok? ==> bookings == old(bookings) + [r.value] && nextId == old(nextId) + 1
      ensures r.Err? ==> bookings == old(bookings) && nextId == old(nextId)
    {
      var service := FindService(services, req.serviceId);
      if service.None? {
        return Err(ServiceNotFound);
      }
      if req.bookingDate < today {
        return Err(DateInPast);
      }
      var clientConflicts := FindConflictingBookingsForClient(bookings, userId, req.bookingDate, req.bookingTime);
      if clientConflicts != [] {
        return Err(ClientSlotTaken);
      }
      var barberUserId: Id;
      if req.barberId.Some? {
        var barber := Barbers.FindBarber(barberDirectory.barbers, req.barberId.value);
        if barber.None? {
          return Err(BarberNotFound);
        }
        if !barber.value.active {
          return Err(BarberInactive);
        }
        barberUserId := barber.value.userId;
        var barberConflicts := FindConflictingBookingsForBarber(bookings, barberUserId, req.bookingDate, req.bookingTime);
        if barberConflicts != [] {
          return Err(BarberSlotTaken);
        }
      } else {
        var found := FindAvailableBarber(req.bookingDate, req.bookingTime);
        if found.None? {
          return Err(NoBarberAvailable);
        }
        barberUserId := found.value;
      }
      var booking := Booking(nextId, userId, service.value, Some(barberUserId), req.bookingDate, req.bookingTime, Pending, req.notes);
      assert Ok(booking) == PlanBooking(bookings, services, barberDirectory.barbers, userId, req, today, nextId);
      CreatedBookingKeepsSlotsExclusive(bookings, services, barberDirectory.barbers, userId, req, today, nextId);
      bookings := bookings + [booking];
      nextId := nextId + 1;
      r := Ok(booking);
    }

    /** `cancelBooking`: the owner cancels a booking that is neither CANCELLED nor COMPLETED. */
    method CancelBooking(userId: Id, bookingId: Id) returns (r: Result<Booking, BookingError>)
      requires Valid()
      modifies this
      ensures Valid() && nextId == old(nextId)
      ensures TransitionOutcome(old(bookings), bookings, bookingId, ClientCancel, userId, r)
    {
      var found := FindById(bookings, bookingId);
      if found.None? {
        return Err(BookingNotFound);
      }
      var i := found.value;
      var booking := bookings[i];
      if booking.userId != userId {
        return Err(NotOwner);
      }
      if booking.status == Cancelled {
        return Err(StatusForbids(Cancelled));
      }
      if booking.status == Completed {
        return Err(StatusForbids(Completed));
      }
      StatusChangeKeepsSlotsExclusive(bookings, i, Cancelled);
      booking := booking.(status := Cancelled);
      bookings := bookings[i := booking];
      r := Ok(booking);
    }

    /** `deleteBooking`: the owner removes the record, whatever its status. */
    method DeleteBooking(userId: Id, bookingId: Id) returns (r: Outcome<BookingError>)
      requires Valid()
      modifies this
      ensures Valid() && nextId == old(nextId)
      ensures match FindById(old(bookings), bookingId)
        case None => r == Fail(BookingNotFound) && bookings == old(bookings)
        case Some(i) =>
          if old(bookings)[i].userId != userId then r == Fail(NotOwner) && bookings == old(bookings)
          else r == Pass && bookings == old(bookings)[..i] + old(bookings)[i + 1..]
    {
      var found := FindById(bookings, bookingId);
      if found.None? {
        return Fail(BookingNotFound);
      }
      var i := found.value;
      if bookings[i].userId != userId {
        return Fail(NotOwner);
      }
      RemovalKeepsTableProperties(bookings, i, nextId);
      bookings := bookings[..i] + bookings[i + 1..];
      r := Pass;
    }

    /** `confirmBookingByBarber`: the assigned barber confirms a PENDING booking. */
    method ConfirmBookingByBarber(barberId: Id, bookingId: Id) returns (r: Result<Booking, BookingError>)
      requires Valid()
      modifies this
      ensures Valid() && nextId == old(nextId)
      ensures TransitionOutcome(old(bookings), bookings, bookingId, BarberConfirm, barberId, r)
    {
      var found := FindById(bookings, bookingId);
      if found.None? {
        return Err(BookingNotFound);
      }
      var i := found.value;
      var booking := bookings[i];
      if booking.barberId.None? || booking.barberId.value != barberId {
        return Err(NotAssignedBarber);
      }
      if booking.status == Cancelled {
        return Err(StatusForbids(Cancelled));
      }
      if booking.status == Completed {
        return Err(StatusForbids(Completed));
      }
      if booking.status == Confirmed {
        return Err(StatusForbids(Confirmed));
      }
      StatusChangeKeepsSlotsExclusive(bookings, i, Confirmed);
      booking := booking.(status := Confirmed);
      bookings := bookings[i := booking];
      r := Ok(booking);
    }

    /** `completeBookingByBarber`: the assigned barber completes a booking that is neither CANCELLED
        nor COMPLETED (a PENDING one included). */
    method CompleteBookingByBarber(barberId: Id, bookingId: Id) returns (r: Result<Booking, BookingError>)
      requires Valid()
      modifies this
      ensures Valid() && nextId == old(nextId)
      ensures TransitionOutcome(old(bookings), bookings, bookingId, BarberComplete, barberId, r)
    {
      var found := FindById(bookings, bookingId);
      if found.None? {
        return Err(BookingNotFound);
      }
      var i := found.value;
      var booking := bookings[i];
      if booking.barberId.None? || booking.barberId.value != barberId {
        return Err(NotAssignedBarber);
      }
      if booking.status == Cancelled {
        return Err(StatusForbids(Cancelled));
      }
      if booking.status == Completed {
        return Err(StatusForbids(Completed));
      }
      StatusChangeKeepsSlotsExclusive(bookings, i, Completed);
      booking := booking.(status := Completed);
      bookings := bookings[i := booking];
      r := Ok(booking);
    }

    /** `cancelBookingByBarber`: the assigned barber cancels a booking that is neither CANCELLED nor COMPLETED. */
    method CancelBookingByBarber(barberId: Id, bookingId: Id) returns (r: Result<Booking, BookingError>)
      requires Valid()
      modifies this
      ensures Valid() && nextId == old(nextId)
      ensures TransitionOutcome(old(bookings), bookings, bookingId, BarberCancel, barberId, r)
    {
      var found := FindById(bookings, bookingId);
      if found.None? {
        return Err(BookingNotFound);
      }
      var i := found.value;
      var booking := bookings[i];
      if booking.barberId.None? || booking.barberId.value != barberId {
        return Err(NotAssignedBarber);
      }
      if booking.status == Cancelled {
        return Err(StatusForbids(Cancelled));
      }
      if booking.status == Completed {
        return Err(StatusForbids(Completed));
      }
      StatusChangeKeepsSlotsExclusive(bookings, i, Cancelled);
      booking := booking.(status := Cancelled);
      bookings := bookings[i := booking];
      r := Ok(booking);
    }
  }
}
