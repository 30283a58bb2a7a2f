/** The booking service's persistent records: Booking, Barber and Service, with the booking status enum. */
module Entities {
  import opened Wrappers

  /** Identifiers (UUIDs in the source), abstracted to naturals. */
  type Id = nat

  /** A calendar day, counted in days from a fixed epoch (a `LocalDate`). */
  type Date = int

  /** A time of day as minutes after midnight (a `LocalTime` at minute precision). */
  type MinuteOfDay = t: int | 0 <= t < 1440

  /** An amount of money in cents (the `BigDecimal` prices). */
  type Cents = nat

  /** `Booking.BookingStatus`. */
  datatype Status = Pending | Confirmed | Cancelled | Completed

  /** A new booking starts out pending. */
  const DefaultStatus: Status := Pending

  /** The enum constant's `name()`, as written into DTOs and compared against on the frontend. */
  function StatusName(s: Status): string
  {
    match s
    case Pending => "PENDING"
    case Confirmed => "CONFIRMED"
    case Cancelled => "CANCELLED"
    case Completed => "COMPLETED"
  }

  /** `BookingStatus.valueOf`, without the exception: the status a name denotes, if any. */
  function StatusFromName(name: string): (r: Option<Status>)
    ensures r.Some? ==> StatusName(r.value) == name
  {
    if name == "PENDING" then Some(Pending)
    else if name == "CONFIRMED" then Some(Confirmed)
    else if name == "CANCELLED" then Some(Cancelled)
    else if name == "COMPLETED" then Some(Completed)
    else None
  }

  /** Status names round-trip, so distinct statuses have distinct names. */
  lemma StatusNameRoundTrip(s: Status)
    ensures StatusFromName(StatusName(s)) == Some(s)
  {
  }

  /** A bookable service of the catalog (`Service.java`); `active` defaults to true. */
  datatype Service = Service(
    id: Id,
    name: string,
    description: Option<string>,
    durationMinutes: int,
    price: Cents,
    active: bool)

  /** A barber (`Barber.java`): `userId` links to the auth user and is unique in the table;
      `rating` is in hundredths (precision 3, scale 2) and defaults to 0; `active` defaults to true. */
  datatype Barber = Barber(
    id: Id,
    userId: Id,
    specialties: Option<seq<string>>,
    bio: Option<string>,
    rating: int,
    active: bool)

  /** Rating a barber gets when none is given. */
  const DefaultRating: int := 0

  /** A booking (`Booking.java`). `barberId` holds the barber's user id, not the barber table id;
      `service` is the booked service row. */
  datatype Booking = Booking(
    id: Id,
    userId: Id,
    service: Service,
    barberId: Option<Id>,
    bookingDate: Date,
    bookingTime: MinuteOfDay,
    status: Status,
    notes: Option<string>)
}
