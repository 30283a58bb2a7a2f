# Barbershop booking: a verified model of the booking lifecycle

This project models the core of a barbershop booking system in Dafny and proves properties of the model. The system is a set of Spring services plus a React frontend. The model covers:

- **Booking service** (`BookingEngine`, `BookingRepository`). Creates bookings in a fixed order of checks: the service exists, the date is not in the past, the client is free in the slot, and the requested barber exists, is active and is free. Without a request, the first free active barber is assigned. The service also runs the role-gated status transitions (client cancel; barber confirm, complete and cancel), the owner's hard delete, and the repository's conflict queries and ordered listings.
- **Barber directory** (`Barbers`). The active and admin listings, the idempotent create (one barber per user), the partial update, the soft delete, and the quote doubling in the SQL literals the create writes.
- **Auth and users** (`Auth`, `Users`). The users table as a state machine over email verification: register, login guard, verify, resend, reset password and the admin's barber creation. Also profile lookup, partial update and delete.
- **Frontend logic** (`AdminDashboard`, `BarberDashboard`, `NewBookingPage`, `BookingsPage`, `AppRoutes`, `AuthStore`, with `FrontendTypes` for the shared view types and text routines). Dashboard statistics and filters, the time-slot generator, status labels and colours, button visibility, the route guards and the session store.

Stateful parts are classes whose fields stand for tables or stores: `BookingService`, `BarberDirectory`, `AuthService`, `UserService` and `Store`. Their methods are proved against pure functions (`PlanBooking`, `Attempt`, `FirstFreeBarber`, `ApplyUpdate`, `Patch`, ...), and lemmas state the source's promises about those functions. Each table class keeps an invariant:
- the booking table never holds two open bookings of one barber, or of one client, in a slot;
- barber records are unique per user;
- emails are unique, and a user holds a verification token exactly while unverified.

Conventions:
- Ids (UUIDs) are natural numbers; fresh ids come from a counter.
- Dates are day numbers and times of day are minutes (0 to 1439).
- Prices are whole cents. Instants are minutes.
- "Today", "now" and the start of the week are parameters.

Facts of the code the model follows, which a reader might not expect:
- Slot conflicts are checked, for the client and for the barber.
- Auto-assignment with no free barber is an error; the booking is not left unassigned.
- `createBooking` never checks that the service is active.
- Completing accepts PENDING as well as CONFIRMED.
- There are no admin transitions: an admin who is neither owner nor assigned barber is refused.
- A booking refers to its service row; there is no price snapshot.
- The upcoming listings have no date cutoff.
- The request's `@Future` annotation rejects today, while the service-level check accepts it. Both are modelled, as `IsFuture` and `NotInPast`.

Assumptions:
- `findConflictingBookingsForClient` is called by `createBooking` but not declared in `BookingRepository.java`. It is modelled by analogy with the barber query, keyed by the booking's user id.
- The booking time reaches the frontend as "HH:MM:SS". The barber dashboard's parser is proved to read both "HH:MM" and "HH:MM:SS".
- The user service's own `User` entity is not part of this model; `Users` works on the same user record as `Auth`.
- Verification tokens are random UUIDs. `Register` and `ResendVerificationEmail` take the new token as a parameter and require that no user already holds it. This is what lets `AuthService` keep pending tokens distinct.

## Model

| member | source | states |
|---|---|---|
| Entities.StatusFromName | booking-service/src/main/java/com/barbershop/booking/entity/Booking.java:58-60 | a name that parses gives back a status whose enum name is that name |
| Entities.StatusNameRoundTrip | booking-service/src/main/java/com/barbershop/booking/entity/Booking.java:58-60 | every status's enum name parses back to that status, so the four names are distinct |
| BookingRepository.SlotKeyOrdersChronologically | booking-service/src/main/java/com/barbershop/booking/repository/BookingRepository.java:26-27 | ordering by the key date*1440+time is the same as ordering by date and then by time |
| Seqs.FirstIndex | booking-service/src/main/java/com/barbershop/booking/repository/BookingRepository.java:14 | the lookup by a unique column: the index returned is the first element with the key; there is none exactly when no element has it |
| BookingRepository.FindById | booking-service/src/main/java/com/barbershop/booking/repository/BookingRepository.java:14 | `Seqs.FirstIndex` keyed by booking id: the first booking with the id, or none exactly when no booking has it |
| BookingRepository.FindConflictingBookings | booking-service/src/main/java/com/barbershop/booking/repository/BookingRepository.java:20-21 | a booking is in the result iff it has the date and the time and is not CANCELLED; the result keeps table order |
| BookingRepository.FindConflictingBookingsForBarber | booking-service/src/main/java/com/barbershop/booking/repository/BookingRepository.java:23-24 | a booking is in the result iff it has the barber's id, the date and the time and is not CANCELLED; the result keeps table order |
| BookingRepository.FindConflictingBookingsForClient | booking-service/src/main/java/com/barbershop/booking/service/BookingService.java:77-81 | the same as the barber query but keyed by the booking's user id (the query is called here but not declared in the repository) |
| BookingRepository.SortedBySlotKeyIsChronological | booking-service/src/main/java/com/barbershop/booking/repository/BookingRepository.java:26-27 | a list sorted by the slot key is in ascending (date, time) order |
| BookingRepository.SortedByReverseSlotKeyIsReverseChronological | booking-service/src/main/java/com/barbershop/booking/repository/BookingRepository.java:29-30 | a list sorted by the reverse key is in descending (date, time) order |
| BookingRepository.FindByUserIdDesc | booking-service/src/main/java/com/barbershop/booking/repository/BookingRepository.java:16 | a permutation of the user's bookings, in descending (date, time) order |
| BookingRepository.FindByBarberIdDesc | booking-service/src/main/java/com/barbershop/booking/repository/BookingRepository.java:29-30 | a permutation of the bookings assigned to the barber, in descending (date, time) order |
| BookingRepository.FindAllDesc | booking-service/src/main/java/com/barbershop/booking/repository/BookingRepository.java:35-36 | a permutation of the whole table, in descending (date, time) order |
| BookingRepository.FindUpcomingByUser | booking-service/src/main/java/com/barbershop/booking/repository/BookingRepository.java:26-27 | a permutation of the user's PENDING or CONFIRMED bookings, with no date cutoff, in ascending (date, time) order |
| BookingRepository.FindUpcomingByBarber | booking-service/src/main/java/com/barbershop/booking/repository/BookingRepository.java:32-33 | the same filter and order, keyed by the assigned barber |
| BookingRepository.FindByBookingDate | booking-service/src/main/java/com/barbershop/booking/repository/BookingRepository.java:18 | a permutation of the bookings on the date, in ascending time order |
| BookingRepository.BarberConflictsAreSlotConflicts | booking-service/src/main/java/com/barbershop/booking/repository/BookingRepository.java:20-24 | every barber conflict is also a conflict for the slot as a whole |
| Barbers.ListActive | booking-service/src/main/java/com/barbershop/booking/controller/BarberController.java:45 | the public listing holds exactly the active barbers; the model lists them in table order, which the query does not promise |
| Barbers.PublicListingWithinAdminListing | booking-service/src/main/java/com/barbershop/booking/controller/BarberController.java:45-66 | the public listing is the admin listing with exactly the inactive barbers removed |
| Barbers.FindIndex | booking-service/src/main/java/com/barbershop/booking/controller/BarberController.java:174-175 | `Seqs.FirstIndex` keyed by the barber's table id: a barber with the id, or none exactly when no barber has it |
| Barbers.FindBarber | booking-service/src/main/java/com/barbershop/booking/service/BookingService.java:95-99 | a barber of the table with the requested table id; there is none exactly when none has it |
| Barbers.FindByUserId | booking-service/src/main/java/com/barbershop/booking/controller/BarberController.java:300-305 | a barber of the table with the user id; there is none exactly when none has it |
| Barbers.EscapeQuotes | booking-service/src/main/java/com/barbershop/booking/controller/BarberController.java:321 | escaping never shortens the text |
| Barbers.ReadEscapedBody | booking-service/src/main/java/com/barbershop/booking/controller/BarberController.java:321 | the database reads an escaped body followed by the closing quote back as the original text |
| Barbers.SqlLiteralRoundTrip | booking-service/src/main/java/com/barbershop/booking/controller/BarberController.java:321 | the quoted literal built for the bio denotes exactly the bio, whatever quotes it contains |
| Barbers.EscapeWithoutQuotesIsIdentity | booking-service/src/main/java/com/barbershop/booking/controller/BarberController.java:321 | text without single quotes is written unchanged |
| Barbers.SqlLiterals | booking-service/src/main/java/com/barbershop/booking/controller/BarberController.java:309-313 | one literal per specialty |
| Barbers.SqlLiteralsRoundTrip | booking-service/src/main/java/com/barbershop/booking/controller/BarberController.java:309-313 | the array literal's elements denote exactly the given specialties |
| Barbers.ApplyUpdate | booking-service/src/main/java/com/barbershop/booking/controller/BarberController.java:177-185 | an update never changes the id, the user id or the rating |
| Barbers.EmptyUpdateIsIdentity | booking-service/src/main/java/com/barbershop/booking/controller/BarberController.java:177-185 | a request with no field set changes nothing |
| Barbers.UpdateIsIdempotent | booking-service/src/main/java/com/barbershop/booking/controller/BarberController.java:177-185 | applying the same request twice equals applying it once |
| Barbers.UpdateWritesExactlyTheGivenFields | booking-service/src/main/java/com/barbershop/booking/controller/BarberController.java:177-185 | each non-null field of the request is written and each null field keeps its old value |
| Barbers.DeactivateIsIdempotent | booking-service/src/main/java/com/barbershop/booking/controller/BarberController.java:218-220 | deactivating twice equals deactivating once, and the deactivated barber drops out of the public listing |
| Barbers.BarberDirectory.GetAllBarbers | booking-service/src/main/java/com/barbershop/booking/controller/BarberController.java:43-62 | returns exactly the active barbers; the model returns them in table order, which the query does not promise |
| Barbers.BarberDirectory.CreateBarber | booking-service/src/main/java/com/barbershop/booking/controller/BarberController.java:300-323 | returns the user's existing barber and inserts nothing, or inserts an active barber with rating 0 and the given bio and specialties (an empty list stored as NULL); at most one barber per user is kept |
| Barbers.BarberDirectory.UpdateBarber | booking-service/src/main/java/com/barbershop/booking/controller/BarberController.java:174-187 | an unknown id fails and changes nothing; otherwise only that record changes, to the updated one |
| Barbers.BarberDirectory.DeleteBarber | booking-service/src/main/java/com/barbershop/booking/controller/BarberController.java:215-220 | an unknown id fails and changes nothing; otherwise the record stays and only its active flag is cleared |
| BookingEngine.FutureIsStricterThanNotInPast | booking-service/src/main/java/com/barbershop/booking/dto/CreateBookingRequest.java:17-18 | the request's future check implies the service's not-in-the-past check, and the two differ only on today |
| BookingEngine.FindService | booking-service/src/main/java/com/barbershop/booking/service/BookingService.java:64-68 | a catalog service with the id; there is none exactly when no service has it |
| BookingEngine.IsFreeMeansNoBookingInSlot | booking-service/src/main/java/com/barbershop/booking/service/BookingService.java:108-119 | a barber is free exactly when none of their bookings occupies the slot |
| BookingEngine.FirstFreeBarberIsFirstFree | booking-service/src/main/java/com/barbershop/booking/service/BookingService.java:174-204 | the chosen barber is free and every barber before it in the list is busy; there is none exactly when the list is empty or every barber is busy |
| BookingEngine.AutoAssignedBarberIsActiveAndFree | booking-service/src/main/java/com/barbershop/booking/service/BookingService.java:175-200 | an auto-assigned barber is an active barber of the table with no booking in the slot |
| BookingEngine.UnknownServiceIsRejected | booking-service/src/main/java/com/barbershop/booking/service/BookingService.java:64-68 | an unknown service id fails before any other check |
| BookingEngine.PastDateIsRejectedTodayIsNot | booking-service/src/main/java/com/barbershop/booking/service/BookingService.java:71-74 | with a known service, the date check fails exactly for dates strictly before today |
| BookingEngine.ClientConflictIsRejected | booking-service/src/main/java/com/barbershop/booking/service/BookingService.java:77-87 | past those checks, creation fails with the client error exactly when the client already holds the slot with a booking that is not cancelled |
| BookingEngine.ServiceActiveFlagIsNotChecked | booking-service/src/main/java/com/barbershop/booking/service/BookingService.java:64-68 | deactivating the requested service changes no decision and no error |
| BookingEngine.RequestedBarberOutcome | booking-service/src/main/java/com/barbershop/booking/service/BookingService.java:92-124 | a requested barber that is missing, inactive or busy gives its own error; otherwise the booking carries that barber's user id |
| BookingEngine.AutoAssignmentOutcome | booking-service/src/main/java/com/barbershop/booking/service/BookingService.java:125-138 | without a request, creation fails exactly when every active barber is busy, and otherwise carries the first free one |
| BookingEngine.CreatedBookingFields | booking-service/src/main/java/com/barbershop/booking/service/BookingService.java:141-149 | a created booking is PENDING, belongs to the caller, has the new id, the request's service, date, time and notes, and always has a barber |
| BookingEngine.CreatedBookingKeepsSlotsExclusive | booking-service/src/main/java/com/barbershop/booking/service/BookingService.java:77-151 | adding a created booking keeps every barber and every client to one open booking per slot |
| BookingEngine.StatusChangeKeepsSlotsExclusive | booking-service/src/main/java/com/barbershop/booking/service/BookingService.java:252-383 | a status change that does not reopen a cancelled booking keeps the slots exclusive |
| BookingEngine.RemovalKeepsTableProperties | booking-service/src/main/java/com/barbershop/booking/service/BookingService.java:278-288 | removing a booking keeps the slots exclusive and the ids distinct |
| BookingEngine.AttemptIsAStep | booking-service/src/main/java/com/barbershop/booking/service/BookingService.java:252-383 | a successful transition makes one move of the status graph and changes no other field |
| BookingEngine.TerminalStatusesAreFinal | booking-service/src/main/java/com/barbershop/booking/service/BookingService.java:252-383 | every transition fails on a CANCELLED or COMPLETED booking, for every caller |
| BookingEngine.ClientCancelRule | booking-service/src/main/java/com/barbershop/booking/service/BookingService.java:257-268 | client cancel succeeds exactly for the owner on a PENDING or CONFIRMED booking |
| BookingEngine.BarberCancelRule | booking-service/src/main/java/com/barbershop/booking/service/BookingService.java:365-376 | barber cancel succeeds exactly for the assigned barber on a PENDING or CONFIRMED booking |
| BookingEngine.ConfirmRule | booking-service/src/main/java/com/barbershop/booking/service/BookingService.java:297-312 | confirm succeeds exactly for the assigned barber on a PENDING booking |
| BookingEngine.CompleteRule | booking-service/src/main/java/com/barbershop/booking/service/BookingService.java:339-350 | complete succeeds exactly for the assigned barber on a PENDING or CONFIRMED booking |
| BookingEngine.StrangersCannotTransition | booking-service/src/main/java/com/barbershop/booking/service/BookingService.java:252-383 | a caller who is neither the owner nor the assigned barber, an admin for instance, is refused every transition |
| BookingEngine.SecondCancelFails | booking-service/src/main/java/com/barbershop/booking/service/BookingService.java:262-264 | after a successful cancel, cancelling again fails because the booking is already CANCELLED |
| BookingEngine.TerminalBookingNeverChanges | booking-service/src/main/java/com/barbershop/booking/service/BookingService.java:252-383 | no sequence of requests changes a CANCELLED or COMPLETED booking |
| BookingEngine.RunAllOnlyMovesStatus | booking-service/src/main/java/com/barbershop/booking/service/BookingService.java:252-383 | along any sequence of requests only the status changes, and it either stays or moves strictly forward in the graph |
| BookingEngine.ReachableRaisesRank | booking-service/src/main/java/com/barbershop/booking/service/BookingService.java:252-383 | each forward move raises the status rank, so no status is ever re-entered |
| BookingEngine.BookingService.FindAvailableBarber | booking-service/src/main/java/com/barbershop/booking/service/BookingService.java:174-204 | the loop returns the first active barber with no conflict in the slot, or none |
| BookingEngine.BookingService.CreateBooking | booking-service/src/main/java/com/barbershop/booking/service/BookingService.java:59-172 | the outcome is the validated plan: on success the table gains exactly the new booking, on failure nothing changes; the table stays free of double bookings |
| BookingEngine.BookingService.CancelBooking | booking-service/src/main/java/com/barbershop/booking/service/BookingService.java:252-275 | an unknown id fails; otherwise the outcome is the client-cancel rule and only that booking's status changes |
| BookingEngine.BookingService.DeleteBooking | booking-service/src/main/java/com/barbershop/booking/service/BookingService.java:278-288 | an unknown id or a caller who is not the owner fails with no change; otherwise exactly that record is removed, whatever its status |
| BookingEngine.BookingService.ConfirmBookingByBarber | booking-service/src/main/java/com/barbershop/booking/service/BookingService.java:292-331 | an unknown id fails; otherwise the outcome is the confirm rule and only that booking's status changes |
| BookingEngine.BookingService.CompleteBookingByBarber | booking-service/src/main/java/com/barbershop/booking/service/BookingService.java:334-357 | an unknown id fails; otherwise the outcome is the complete rule and only that booking's status changes |
| BookingEngine.BookingService.CancelBookingByBarber | booking-service/src/main/java/com/barbershop/booking/service/BookingService.java:360-383 | an unknown id fails; otherwise the outcome is the barber-cancel rule and only that booking's status changes |
| Auth.FindByEmail | auth-service/src/main/java/com/barbershop/auth/service/AuthService.java:121-122 | `Seqs.FirstIndex` keyed by email: the first user with the email, or none exactly when no user has it |
| Auth.FindByToken | auth-service/src/main/java/com/barbershop/auth/service/AuthService.java:106-107 | a user whose pending token is the given one; there is none exactly when no user holds it |
| Auth.NewAccountsAreWellFormed | auth-service/src/main/java/com/barbershop/auth/service/AuthService.java:48-57 | a registered client is unverified with a token, and a barber made by an admin is verified with none |
| Auth.MarkVerifiedProperties | auth-service/src/main/java/com/barbershop/auth/service/AuthService.java:113-116 | verifying sets the flag, clears token and expiry, touches nothing else, and is idempotent |
| Auth.ReissueProperties | auth-service/src/main/java/com/barbershop/auth/service/AuthService.java:128-131 | a resend replaces the token, sets the expiry to now plus 24 hours and touches nothing else |
| Auth.VerifiedTokenIsConsumed | auth-service/src/main/java/com/barbershop/auth/service/AuthService.java:105-116 | when tokens are distinct, no user holds a token once it has been used |
| Auth.FreshTokenKeepsTokensDistinct | auth-service/src/main/java/com/barbershop/auth/service/AuthService.java:128-131 | replacing one user by a record that keeps its token, drops it, or holds one nobody holds keeps the pending tokens distinct |
| Auth.FreshUserKeepsTokensDistinct | auth-service/src/main/java/com/barbershop/auth/service/AuthService.java:48-57 | adding a user whose token nobody holds, or who has none, keeps the pending tokens distinct |
| Auth.AuthService.Register | auth-service/src/main/java/com/barbershop/auth/service/AuthService.java:41-78 | a taken email fails and adds nobody; otherwise exactly one USER is added, unverified, with the fresh token expiring 24 hours after now |
| Auth.AuthService.Login | auth-service/src/main/java/com/barbershop/auth/service/AuthService.java:81-102 | unknown email and wrong password fail with the same error; success returns the stored user with that email whose password matches |
| Auth.AuthService.VerifyEmail | auth-service/src/main/java/com/barbershop/auth/service/AuthService.java:105-117 | an unknown token or an expiry before now fails with no change; otherwise that user becomes verified, and afterwards no user holds the token |
| Auth.AuthService.ResendVerificationEmail | auth-service/src/main/java/com/barbershop/auth/service/AuthService.java:120-135 | an unknown or already verified user fails with no change; otherwise only that user's token and expiry are replaced |
| Auth.AuthService.ResetPassword | auth-service/src/main/java/com/barbershop/auth/service/AuthService.java:138-144 | an unknown email fails; otherwise only that user's password changes |
| Auth.AuthService.CreateBarber | auth-service/src/main/java/com/barbershop/auth/service/AuthService.java:147-180 | a taken email fails and adds nobody; otherwise exactly one BARBER is added, verified and without a token |
| Users.PatchTouchesOnlyProfileFields | user-service/src/main/java/com/barbershop/user/service/UserService.java:36-41 | an update changes only the full name and phone, and keeps a user's verification state consistent |
| Users.PatchWritesGivenFields | user-service/src/main/java/com/barbershop/user/service/UserService.java:36-41 | each non-null field is written and each null field keeps its old value |
| Users.EmptyPatchIsIdentity | user-service/src/main/java/com/barbershop/user/service/UserService.java:36-43 | an update with both fields null leaves the record unchanged |
| Users.PatchIsIdempotent | user-service/src/main/java/com/barbershop/user/service/UserService.java:36-41 | applying the same update twice equals applying it once |
| Users.PatchesCompose | user-service/src/main/java/com/barbershop/user/service/UserService.java:36-41 | two updates in a row equal one merged update in which the later fields win |
| Users.FindById | user-service/src/main/java/com/barbershop/user/service/UserService.java:20-21 | `Seqs.FirstIndex` keyed by user id: a user with the id, or none exactly when no user has it |
| Users.UserService.GetUserById | user-service/src/main/java/com/barbershop/user/service/UserService.java:19-23 | an unknown id fails; otherwise the stored user with that id is returned |
| Users.UserService.UpdateUser | user-service/src/main/java/com/barbershop/user/service/UserService.java:32-45 | an unknown id fails with no change; otherwise only that user is replaced by its patched record |
| Users.UserService.DeleteUser | user-service/src/main/java/com/barbershop/user/service/UserService.java:48-53 | an unknown id fails with no change; otherwise no user with that id remains and all others are kept, in order |
| FrontendTypes.TotalPriceFilterMonotone | frontend/src/pages/BarberDashboardPage.tsx:41 | summing prices over a selection that keeps more bookings never gives less |
| FrontendTypes.TwoDigitsAreTensAndUnits | frontend/src/pages/NewBookingPage.tsx:55-56 | zero-padding a number below 100 to two characters gives its tens digit and then its units digit |
| FrontendTypes.ParseDecimalOfNatToString | frontend/src/pages/BarberDashboardPage.tsx:54-55 | reading back a number's decimal text as a number gives the number |
| FrontendTypes.ParseDecimalOfTwoDigits | frontend/src/pages/BarberDashboardPage.tsx:54-55 | reading back a zero-padded two-digit text gives the number |
| FrontendTypes.SplitOnPiece | frontend/src/pages/BarberDashboardPage.tsx:54-55 | splitting on ':' cuts exactly at the separators |
| FrontendTypes.FormatHHMMFields | frontend/src/pages/NewBookingPage.tsx:55-56 | a formatted time is five characters: the two-digit hour, ':' and the two-digit minute |
| FrontendTypes.FormattedTimesDiffer | frontend/src/pages/NewBookingPage.tsx:55-56 | two different minutes of the day format to different texts, each reading back as itself |
| FrontendTypes.ClockMinutesOfFormattedTime | frontend/src/pages/BarberDashboardPage.tsx:54-56 | hours*60+minutes read from a formatted time, with or without seconds, is its minute of the day |
| FrontendTypes.ToView | booking-service/src/main/java/com/barbershop/booking/service/BookingService.java:433-445 | the view carries the booking's status name (which parses back to the status), a time string that reads back as its minute of the day, and its ids, date and price |
| AdminDashboard.StatsOfNoBookings | frontend/src/pages/AdminDashboardPage.tsx:30-48 | no bookings, or none loaded yet, give all-zero statistics |
| AdminDashboard.TotalIsBookingCount | frontend/src/pages/AdminDashboardPage.tsx:31 | total equals the number of bookings |
| AdminDashboard.StatusCountsSumToTotal | frontend/src/pages/AdminDashboardPage.tsx:32-35 | when every status is one of the four, the four status counts add up to the total |
| AdminDashboard.RevenueSplitsOnCancelled | frontend/src/pages/AdminDashboardPage.tsx:47 | revenue plus the prices of the cancelled bookings is the sum of all prices, so exactly the cancelled bookings are left out |
| AdminDashboard.TodayWithinWeek | frontend/src/pages/AdminDashboardPage.tsx:36-46 | when the reference day lies in the reference week, the today count is at most the week count |
| AdminDashboard.ContainsIffOccurs | frontend/src/pages/AdminDashboardPage.tsx:53 | the includes test succeeds exactly when the term occurs at some position |
| AdminDashboard.FilterIsThreeWayConjunction | frontend/src/pages/AdminDashboardPage.tsx:51-66 | a booking passes iff its status matches (or the filter is ALL), its lowercased service name contains the lowercased term, and the date filter holds |
| AdminDashboard.FilteredIsOrderedSubset | frontend/src/pages/AdminDashboardPage.tsx:51-66 | the filtered list keeps input order and holds exactly the passing bookings |
| AdminDashboard.InitialFilterShowsAll | frontend/src/pages/AdminDashboardPage.tsx:51-66 | with ALL, an empty search and ALL, the filtered list is the input |
| BarberDashboard.TodayViewIsSortedSelection | frontend/src/pages/BarberDashboardPage.tsx:49-57 | the today view is a permutation of today's non-cancelled bookings, in ascending time-of-day order |
| BarberDashboard.TimeKeyOfServerBooking | frontend/src/pages/BarberDashboardPage.tsx:53-56 | for a booking as the server sends it, the sort key is its minute of the day |
| BarberDashboard.OtherViewsPassThrough | frontend/src/pages/BarberDashboardPage.tsx:45-62 | the upcoming view is the server's upcoming list and the all view the barber's list, both unchanged; nothing is shown before the barber's list arrives |
| BarberDashboard.TodayCountMatchesTodayView | frontend/src/pages/BarberDashboardPage.tsx:34-37 | the today count equals the length of the today view |
| BarberDashboard.RevenueCountsCompletedOnly | frontend/src/pages/BarberDashboardPage.tsx:39-41 | barber revenue comes from COMPLETED bookings only: it is at most the non-cancelled revenue, and zero when there are none; completed is at most total |
| BarberDashboard.ConfirmShownExactlyWhenServerAccepts | frontend/src/pages/BarberDashboardPage.tsx:248-254 | on a booking assigned to the barber, the confirm button shows exactly when the server would accept the confirmation |
| BookingsPage.StatusColorsAreDistinct | frontend/src/pages/BookingsPage.tsx:35-48 | the four statuses get four distinct colours other than gray, and every other string gets gray |
| BookingsPage.StatusLabelsAreDistinct | frontend/src/pages/BookingsPage.tsx:50-63 | the four statuses get four distinct labels, and every other string is shown unchanged |
| BookingsPage.CancelShownExactlyWhenServerAccepts | frontend/src/pages/BookingsPage.tsx:120 | on the owner's booking, the cancel button shows exactly when the server would accept the cancellation |
| NewBookingPage.GenerateTimeSlots | frontend/src/pages/NewBookingPage.tsx:53-57 | the loop yields 18 slots, the k-th being the zero-padded HH:MM of 9:00 plus 30k minutes |
| NewBookingPage.FirstAndLastSlot | frontend/src/pages/NewBookingPage.tsx:53-57 | the slots run from "09:00" to "17:30" |
| NewBookingPage.SlotShape | frontend/src/pages/NewBookingPage.tsx:55-56 | every slot is a five-character "HH:MM" whose minutes are 00 or 30 and which reads back as its minute |
| NewBookingPage.SlotsIncreaseByHalfHours | frontend/src/pages/NewBookingPage.tsx:53-57 | each slot after the first reads back as the previous slot's minute plus 30 |
| NewBookingPage.SlotsAreDistinct | frontend/src/pages/NewBookingPage.tsx:53-57 | a later slot is a later minute with a different text, so the list holds no duplicates |
| NewBookingPage.OfferedDatesPassServerChecks | frontend/src/pages/NewBookingPage.tsx:60-62 | every date from the minimum on passes both server date checks, and the reference day is not offered |
| NewBookingPage.CurrentService | frontend/src/pages/NewBookingPage.tsx:50 | the selected service has the selected id, or there is none when the list has not loaded or holds no such id |
| NewBookingPage.FirstWithId | frontend/src/pages/NewBookingPage.tsx:50 | finds the first service in list order with the id |
| AppRoutes.UnauthenticatedGoesToLogin | frontend/src/App.tsx:42-78 | every guard sends an unauthenticated visitor to /login, whatever the role |
| AppRoutes.BarberRouteAdmits | frontend/src/App.tsx:59-63 | an authenticated user passes exactly with role BARBER or ADMIN; anyone else goes to /dashboard |
| AppRoutes.AdminRouteAdmits | frontend/src/App.tsx:73-77 | an authenticated user passes exactly with role ADMIN; anyone else goes to /dashboard |
| AppRoutes.GuardsAreNested | frontend/src/App.tsx:42-78 | whoever the admin guard admits, the barber guard admits, and whoever that admits, the plain guard admits |
| AuthStore.Store.constructor | frontend/src/store/authStore.ts:23-24 | the store starts with no token and no user, and is not authenticated |
| AuthStore.Store.SetAuth | frontend/src/store/authStore.ts:25 | sets both the token and the user; authenticated iff the token is not empty |
| AuthStore.Store.Logout | frontend/src/store/authStore.ts:26 | clears both, after which the store is not authenticated |
| AuthStore.LoggedOutStoreIsSentToLogin | frontend/src/store/authStore.ts:26-27 | with no token, every guard redirects to /login |
| AuthStore.TokenWithoutUserIsNotPrivileged | frontend/src/store/authStore.ts:27 | a token with no stored user passes the plain guard but neither role guard |
| Entities.StatusName | booking-service/src/main/java/com/barbershop/booking/entity/Booking.java:58-60 | the enum's `name()`; `StatusNameRoundTrip` and `StatusFromName` state that it is inverted by parsing |
| Barbers.ListForAdmin | booking-service/src/main/java/com/barbershop/booking/controller/BarberController.java:64-66 | `findAll`: the whole table; `PublicListingWithinAdminListing` relates it to the public listing |
| Barbers.StoredText | booking-service/src/main/java/com/barbershop/booking/controller/BarberController.java:321 | what the insert stores for the bio; `SqlLiteralRoundTrip` states it is the bio itself |
| Barbers.StoredSpecialties | booking-service/src/main/java/com/barbershop/booking/controller/BarberController.java:309-313 | what the insert stores for the specialties, NULL when empty; `SqlLiteralsRoundTrip` states it is the list itself |
| Barbers.Deactivated | booking-service/src/main/java/com/barbershop/booking/controller/BarberController.java:218-220 | the soft delete; `DeactivateIsIdempotent` and `BarberDirectory.DeleteBarber` state its effect |
| BookingEngine.IsFree | booking-service/src/main/java/com/barbershop/booking/service/BookingService.java:108-119 | the empty-conflict-list test; `IsFreeMeansNoBookingInSlot` states what it means |
| BookingEngine.FirstFreeBarber | booking-service/src/main/java/com/barbershop/booking/service/BookingService.java:174-204 | the first free barber in list order; `FirstFreeBarberIsFirstFree` and `AutoAssignedBarberIsActiveAndFree` state its contract, and `BookingService.FindAvailableBarber` computes it with the loop |
| BookingEngine.ResolveBarber | booking-service/src/main/java/com/barbershop/booking/service/BookingService.java:92-138 | the barber step of creation; `RequestedBarberOutcome` and `AutoAssignmentOutcome` state its outcomes |
| BookingEngine.PlanBooking | booking-service/src/main/java/com/barbershop/booking/service/BookingService.java:59-151 | the decision of `createBooking`; `UnknownServiceIsRejected`, `PastDateIsRejectedTodayIsNot`, `ClientConflictIsRejected`, `ServiceActiveFlagIsNotChecked`, `RequestedBarberOutcome`, `AutoAssignmentOutcome`, `CreatedBookingFields` and `CreatedBookingKeepsSlotsExclusive` state its contract |
| BookingEngine.Attempt | booking-service/src/main/java/com/barbershop/booking/service/BookingService.java:252-383 | one status request, with the ownership or assignment check first and then the status check; `ClientCancelRule`, `ConfirmRule`, `CompleteRule`, `BarberCancelRule`, `StrangersCannotTransition`, `AttemptIsAStep` and `TerminalStatusesAreFinal` state its contract |
| BookingEngine.TransitionOutcome | booking-service/src/main/java/com/barbershop/booking/service/BookingService.java:252-383 | the table-level effect of one status request, as the four transition methods ensure it: not found, or `Attempt` written back at that index |
| Auth.NewClient | auth-service/src/main/java/com/barbershop/auth/service/AuthService.java:48-57 | the record `register` saves; `NewAccountsAreWellFormed` and `AuthService.Register` state its contract |
| Auth.NewBarberAccount | auth-service/src/main/java/com/barbershop/auth/service/AuthService.java:154-161 | the record `createBarber` saves; `NewAccountsAreWellFormed` and `AuthService.CreateBarber` state its contract |
| Auth.MarkVerified | auth-service/src/main/java/com/barbershop/auth/service/AuthService.java:113-115 | the three setters of `verifyEmail`; `MarkVerifiedProperties` and `VerifiedTokenIsConsumed` state its contract |
| Auth.Reissue | auth-service/src/main/java/com/barbershop/auth/service/AuthService.java:128-131 | the new token and expiry of a resend; `ReissueProperties` states its contract |
| Users.Patch | user-service/src/main/java/com/barbershop/user/service/UserService.java:36-41 | the two null-guarded setters; `PatchTouchesOnlyProfileFields`, `PatchWritesGivenFields`, `EmptyPatchIsIdentity`, `PatchIsIdempotent` and `PatchesCompose` state its contract |
| FrontendTypes.ClockMinutes | frontend/src/pages/BarberDashboardPage.tsx:54-56 | `split(':').map(Number)` then hours*60+minutes; `ClockMinutesOfFormattedTime` states it reads back formatted times |
| FrontendTypes.ToServiceView | booking-service/src/main/java/com/barbershop/booking/service/BookingService.java:386-395 | `mapServiceToDTO`, a field-by-field copy; `ToView` states the id and price it carries |
| AdminDashboard.ComputeStats | frontend/src/pages/AdminDashboardPage.tsx:30-48 | the `stats` object; `StatsOfNoBookings`, `TotalIsBookingCount`, `StatusCountsSumToTotal`, `RevenueSplitsOnCancelled` and `TodayWithinWeek` state its contract |
| AdminDashboard.ToLower | frontend/src/pages/AdminDashboardPage.tsx:53 | `toLowerCase` on ASCII letters; used by `Matches` |
| AdminDashboard.Contains | frontend/src/pages/AdminDashboardPage.tsx:53 | `includes`; `ContainsIffOccurs` states its contract |
| AdminDashboard.Matches | frontend/src/pages/AdminDashboardPage.tsx:51-66 | the filter callback with its early returns; `FilterIsThreeWayConjunction` states its contract |
| AdminDashboard.FilteredBookings | frontend/src/pages/AdminDashboardPage.tsx:51-66 | `filteredBookings`; `FilteredIsOrderedSubset` and `InitialFilterShowsAll` state its contract |
| BarberDashboard.ComputeStats | frontend/src/pages/BarberDashboardPage.tsx:33-42 | the `stats` object; `TodayCountMatchesTodayView` and `RevenueCountsCompletedOnly` state its contract |
| BarberDashboard.TimeKey | frontend/src/pages/BarberDashboardPage.tsx:53-56 | the comparator's minute key; `TimeKeyOfServerBooking` states its value on server times |
| BarberDashboard.GetFilteredBookings | frontend/src/pages/BarberDashboardPage.tsx:45-62 | `getFilteredBookings`; `TodayViewIsSortedSelection` and `OtherViewsPassThrough` state its contract |
| BarberDashboard.ShowConfirm | frontend/src/pages/BarberDashboardPage.tsx:248 | the confirm button's condition; `ConfirmShownExactlyWhenServerAccepts` states its contract |
| BookingsPage.StatusColor | frontend/src/pages/BookingsPage.tsx:35-48 | `getStatusColor`; `StatusColorsAreDistinct` states its contract |
| BookingsPage.StatusLabel | frontend/src/pages/BookingsPage.tsx:50-63 | `getStatusLabel`; `StatusLabelsAreDistinct` states its contract |
| BookingsPage.ShowCancel | frontend/src/pages/BookingsPage.tsx:120 | the cancel button's condition; `CancelShownExactlyWhenServerAccepts` states its contract |
| NewBookingPage.MinDate | frontend/src/pages/NewBookingPage.tsx:60-62 | tomorrow as the picker's minimum; `OfferedDatesPassServerChecks` states its contract |
| AppRoutes.ProtectedRoute | frontend/src/App.tsx:42-50 | the plain guard; `UnauthenticatedGoesToLogin` and `GuardsAreNested` state its contract |
| AppRoutes.BarberRoute | frontend/src/App.tsx:52-64 | the barber guard; `UnauthenticatedGoesToLogin`, `BarberRouteAdmits` and `GuardsAreNested` state its contract |
| AppRoutes.AdminRoute | frontend/src/App.tsx:66-78 | the admin guard; `UnauthenticatedGoesToLogin`, `AdminRouteAdmits` and `GuardsAreNested` state its contract |
| AuthStore.Store.IsAuthenticated | frontend/src/store/authStore.ts:27 | `!!token`, regardless of `user`; `LoggedOutStoreIsSentToLogin`, `TokenWithoutUserIsNotPrivileged` and the `Store` methods state its value |

## Left out

- Email sending (welcome, verification, booking confirmation): I/O whose failures the source swallows.
- Names fetched from the user service over REST, for bookings and for barber listings: network lookups. The views carry no names.
- The native-SQL barber insert's retry loop, `Thread.sleep`, entity-manager clearing, and the after-commit event listener in the auth service: timing and transaction plumbing. Only the "existing or new" outcome of the insert is modelled.
- Concurrency and transaction isolation: each operation is modelled as atomic. Two concurrent `createBooking` calls passing the same conflict check, and the `ON CONFLICT` race, are not modelled.
- Password encoding, JWT generation and random UUID tokens. The encoded password, the password check `matches` and the fresh token are parameters.
- Auth.AuthService.Login: returns the user record instead of an `AuthResponse`; the JWT in it is not modelled.
- Clock reads (`LocalDate.now()`, `LocalDateTime.now()`, `new Date()`), the ptBR week start and time zones: these become parameters.
- NewBookingPage.MinDate: does not model that `toISOString` converts to UTC, which can move the minimum date by a day in zones behind UTC.
- Parsing of request strings (`UUID.fromString` rejecting malformed ids, an empty `barberId` string treated as absent): requests are modelled already parsed.
- The HTTP layer, the gateway, exception-to-status mapping, DTO classes and the boot-time admin seeding.
- Frontend prices are floating point; the model uses whole cents.
- Date strings (`parseISO`, `toDateString`) are not modelled: dates are day numbers.
- BarberDashboard.TimeKey: a time string that does not read as a time sorts as minute 0. The page's comparator then returns NaN, which leaves the JavaScript order unspecified.
- Barbers.ListActive: `findByActiveTrue` and `findAll` have no ORDER BY, so the database may return barbers in any order, and the order may change after an update. The model, and with it `BarberDirectory.GetAllBarbers`, uses table order where the database gives none. Which free barber `FirstFreeBarber`, `AutoAssignmentOutcome` and `BookingService.CreateBooking` auto-assign is therefore the model's choice; the source may pick any free active barber.
- Times and instants are whole minutes. The page's slot list only sends whole-minute times, and the model assumes every request does. The conflict queries compare `LocalTime` values exactly, so the source sees no conflict between 10:00:00 and 10:00:30, a case the model cannot represent. Token expiry (`isBefore(now)`) is compared to the minute.
- Tie order: bookings with equal sort keys. The database gives no order for them and the contracts say nothing about it; the model orders ties in one fixed way.
- AdminDashboard.ToLower: lowercases ASCII letters only, not JavaScript's full Unicode case mapping.
- The barber's rating is an integer in hundredths; the `precision = 3, scale = 2` bound is not checked.
- The confirm button on the barber dashboard has no click handler in the source. Only the condition under which it shows is modelled.
- The service-level read wrappers (`getUserBookings`, `getBarberBookings`, `getAllBookings`, `getUpcomingBookings*`, `getBookingById`), the service lookups, and `UserService.getUserByEmail`. These only map repository results to DTOs; the repository functions model them.
- The zustand `persist` storage behind the session store.
