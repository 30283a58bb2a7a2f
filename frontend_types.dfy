/** The frontend's view of bookings and services (ids, prices and dates already decoded; status and
    time of day kept as the strings the pages compare), and the small text routines the pages use on
    times of day. */
module FrontendTypes {
  import opened Wrappers
  import opened Entities
  import opened Seqs

  /** The frontend `Service` interface. */
  datatype ServiceView = ServiceView(id: Id, name: string, description: Option<string>,
                                     durationMinutes: int, price: Cents, active: bool)

  /** The frontend `Booking` interface. `status` is the server's enum name; `bookingTime` is the wire
      form of the booking's time of day. */
  datatype BookingView = BookingView(
    id: Id,
    userId: Id,
    barberId: Option<Id>,
    service: ServiceView,
    bookingDate: Date,
    bookingTime: string,
    status: string,
    notes: Option<string>)

  // ---------------------------------------------------------------------------------------------
  // Selections and sums the dashboards share

  function HasStatus(status: string): BookingView -> bool
  {
    (b: BookingView) => b.status == status
  }

  function StatusIsNot(status: string): BookingView -> bool
  {
    (b: BookingView) => b.status != status
  }

  /** The sum of the service prices (the pages' `reduce`). */
  function TotalPrice(bookings: seq<BookingView>): nat
    decreases |bookings|
  {
    if bookings == [] then 0 else bookings[0].service.price + TotalPrice(bookings[1..])
  }

  /** Keeping more bookings never lowers the sum. */
  lemma {:induction false} TotalPriceFilterMonotone(bookings: seq<BookingView>, p: BookingView -> bool, q: BookingView -> bool)
    requires forall b :: p(b) ==> q(b)
    ensures TotalPrice(Filter(bookings, p)) <= TotalPrice(Filter(bookings, q))
    decreases |bookings|
  {
    if bookings != [] {
      TotalPriceFilterMonotone(bookings[1..], p, q);
    }
  }

  // ---------------------------------------------------------------------------------------------
  // Decimal text

  function Digit(d: nat): char
    requires d < 10
  {
    "0123456789"[d]
  }

  /** `n.toString()`. */
  function NatToString(n: nat): string
    decreases n
  {
    if n < 10 then [Digit(n)] else NatToString(n / 10) + [Digit(n % 10)]
  }

  /** `s.padStart(len, c)`. */
  function PadStart(s: string, len: nat, c: char): (r: string)
  {
    if |s| >= len then s else seq(len - |s|, _ => c) + s
  }

  /** `n.toString().padStart(2, '0')`, for the values below 100 the pages use it on. */
  function TwoDigits(n: nat): (r: string)
    requires n < 100
  {
    PadStart(NatToString(n), 2, '0')
  }

  lemma TwoDigitsAreTensAndUnits(n: nat)
    requires n < 100
    ensures TwoDigits(n) == [Digit(n / 10), Digit(n % 10)]
  {
    if n < 10 {
      assert seq(1, _ => '0') == [Digit(0)];
    } else {
      assert NatToString(n / 10) == [Digit(n / 10)];
    }
  }

  /** Digits are never the time separator. */
  lemma DigitIsNotColon(d: nat)
    requires d < 10
    ensures Digit(d) != ':' && DigitValue(Digit(d)) == Some(d)
  {
    var digits := "0123456789";
    assert digits[d] == '0' + d as char by {
      assert digits[0] == '0' && digits[1] == '1' && digits[2] == '2' && digits[3] == '3' && digits[4] == '4';
      assert digits[5] == '5' && digits[6] == '6' && digits[7] == '7' && digits[8] == '8' && digits[9] == '9';
    }
  }

  /** The value of one decimal digit character. */
  function DigitValue(ch: char): Option<nat>
  {
    if '0' <= ch <= '9' then Some(ch as int - '0' as int) else None
  }

  /** `Number(s)` on strings of decimal digits (the empty string is 0); anything else is not a number. */
  function ParseDecimal(s: string): Option<nat>
    decreases |s|
  {
    if s == [] then Some(0)
    else match (ParseDecimal(s[..|s| - 1]), DigitValue(s[|s| - 1]))
      case (Some(v), Some(d)) => Some(v * 10 + d)
      case _ => None
  }

  /** Decimal printing and parsing are inverse. */
  lemma {:induction false} ParseDecimalOfNatToString(n: nat)
    ensures ParseDecimal(NatToString(n)) == Some(n)
    decreases n
  {
    if n >= 10 {
      ParseDecimalOfNatToString(n / 10);
      var s := NatToString(n);
      assert s[..|s| - 1] == NatToString(n / 10);
    } else {
      assert NatToString(n)[..0] == [];
    }
  }

  lemma ParseDecimalOfTwoDigits(n: nat)
    requires n < 100
    ensures ParseDecimal(TwoDigits(n)) == Some(n)
  {
    TwoDigitsAreTensAndUnits(n);
    DigitIsNotColon(n / 10);
    DigitIsNotColon(n % 10);
    var s := TwoDigits(n);
    assert [Digit(n / 10)][..0] == [];
    assert ParseDecimal([Digit(n / 10)]) == Some(n / 10);
    assert s[..|s| - 1] == [Digit(n / 10)];
  }

  // ---------------------------------------------------------------------------------------------
  // Times of day as text

  /** "HH:MM", zero-padded. */
  function FormatHHMM(t: MinuteOfDay): string
  {
    TwoDigits(t / 60) + ":" + TwoDigits(t % 60)
  }

  /** The hour field, the separator and the minute field sit at fixed positions. */
  lemma FormatHHMMFields(t: MinuteOfDay)
    ensures |FormatHHMM(t)| == 5 && FormatHHMM(t)[2] == ':'
    ensures FormatHHMM(t)[..2] == TwoDigits(t / 60) && FormatHHMM(t)[3..] == TwoDigits(t % 60)
  {
    TwoDigitsAreTensAndUnits(t / 60);
    TwoDigitsAreTensAndUnits(t % 60);
  }

  /** The wire form of a time of day, "HH:MM:SS" (whole minutes only). */
  function WireTime(t: MinuteOfDay): string
  {
    FormatHHMM(t) + ":00"
  }

  /** `s.split(c)`. */
  function SplitOn(s: string, c: char): (r: seq<string>)
    ensures |r| >= 1
    decreases |s|
  {
    if s == [] then [""]
    else if s[0] == c then [""] + SplitOn(s[1..], c)
    else
      var rest := SplitOn(s[1..], c);
      [[s[0]] + rest[0]] + rest[1..]
  }

  /** A piece without the separator comes out whole, and splitting continues after the separator. */
  lemma {:induction false} SplitOnPiece(a: string, b: string, c: char)
    requires c !in a
    ensures SplitOn(a + [c] + b, c) == [a] + SplitOn(b, c)
    ensures SplitOn(a, c) == [a]
    decreases |a|
  {
    if a == [] {
      assert a + [c] + b == [c] + b;
      assert ([c] + b)[1..] == b;
    } else {
      SplitOnPiece(a[1..], b, c);
      assert (a + [c] + b)[1..] == a[1..] + [c] + b;
      assert [a[0]] + a[1..] == a;
    }
  }

  /** What the barber dashboard computes from a time string, `hours * 60 + minutes` after
      `split(':').map(Number)`; none when either part is not a number. */
  function ClockMinutes(s: string): Option<int>
  {
    var parts := SplitOn(s, ':');
    if |parts| < 2 then None
    else match (ParseDecimal(parts[0]), ParseDecimal(parts[1]))
      case (Some(h), Some(m)) => Some(h * 60 + m)
      case _ => None
  }

  lemma TwoDigitsHaveNoColon(n: nat)
    requires n < 100
    ensures ':' !in TwoDigits(n)
  {
    TwoDigitsAreTensAndUnits(n);
    DigitIsNotColon(n / 10);
    DigitIsNotColon(n % 10);
  }

  /** `ClockMinutes` reads the first two ':'-separated fields. */
  lemma ClockMinutesOfParts(s: string, hh: string, mm: string, h: nat, m: nat)
    requires |SplitOn(s, ':')| >= 2 && SplitOn(s, ':')[0] == hh && SplitOn(s, ':')[1] == mm
    requires ParseDecimal(hh) == Some(h) && ParseDecimal(mm) == Some(m)
    ensures ClockMinutes(s) == Some(h * 60 + m)
  {
  }

  /** Two numbers separated by ':', and optionally followed by ":00", read as the first number times 60
      plus the second. */
  lemma ClockMinutesOfFields(hh: string, mm: string, h: nat, m: nat)
    requires ':' !in hh && ':' !in mm
    requires ParseDecimal(hh) == Some(h) && ParseDecimal(mm) == Some(m)
    ensures ClockMinutes(hh + [':'] + mm) == Some(h * 60 + m)
    ensures ClockMinutes(hh + [':'] + (mm + [':'] + "00")) == Some(h * 60 + m)
  {
    SplitOnPiece(hh, mm, ':');
    SplitOnPiece(mm, "", ':');
    assert SplitOn(hh + [':'] + mm, ':') == [hh, mm];
    ClockMinutesOfParts(hh + [':'] + mm, hh, mm, h, m);
    SplitOnPiece(mm, "00", ':');
    SplitOnPiece(hh, mm + [':'] + "00", ':');
    var parts := SplitOn(hh + [':'] + (mm + [':'] + "00"), ':');
    assert parts == [hh] + ([mm] + SplitOn("00", ':'));
    ClockMinutesOfParts(hh + [':'] + (mm + [':'] + "00"), hh, mm, h, m);
  }

  /** Reading back a formatted time of day, with or without seconds, gives the minute of the day. */
  lemma ClockMinutesOfFormattedTime(t: MinuteOfDay)
    ensures ClockMinutes(FormatHHMM(t)) == Some(t)
    ensures ClockMinutes(WireTime(t)) == Some(t)
  {
    var hh, mm := TwoDigits(t / 60), TwoDigits(t % 60);
    TwoDigitsHaveNoColon(t / 60);
    TwoDigitsHaveNoColon(t % 60);
    ParseDecimalOfTwoDigits(t / 60);
    ParseDecimalOfTwoDigits(t % 60);
    ClockMinutesOfFields(hh, mm, t / 60, t % 60);
    assert FormatHHMM(t) == hh + [':'] + mm;
    assert WireTime(t) == hh + [':'] + (mm + [':'] + "00");
  }
  /** Two different times of day format differently, and each reads back as itself. */
  lemma FormattedTimesDiffer(a: MinuteOfDay, b: MinuteOfDay)
    requires a != b
    ensures ClockMinutes(FormatHHMM(a)) == Some(a) && ClockMinutes(FormatHHMM(b)) == Some(b)
    ensures FormatHHMM(a) != FormatHHMM(b)
  {
    ClockMinutesOfFormattedTime(a);
    ClockMinutesOfFormattedTime(b);
  }


  // ---------------------------------------------------------------------------------------------
  // From the server's entities to the frontend's view

  function ToServiceView(s: Service): ServiceView
  {
    ServiceView(s.id, s.name, s.description, s.durationMinutes, s.price, s.active)
  }

  /** `mapBookingToDTO` as the frontend receives it (without the looked-up names). */
  function ToView(b: Booking): (v: BookingView)
    ensures StatusFromName(v.status) == Some(b.status)
    ensures ClockMinutes(v.bookingTime) == Some(b.bookingTime)
    ensures v.id == b.id && v.userId == b.userId && v.barberId == b.barberId && v.bookingDate == b.bookingDate
    ensures v.service.id == b.service.id && v.service.price == b.service.price
  {
    StatusNameRoundTrip(b.status);
    ClockMinutesOfFormattedTime(b.bookingTime);
    BookingView(b.id, b.userId, b.barberId, ToServiceView(b.service), b.bookingDate,
                WireTime(b.bookingTime), StatusName(b.status), b.notes)
  }
}
