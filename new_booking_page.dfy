/** The new-booking page: the selectable time slots, the earliest selectable date and the service lookup. */
module NewBookingPage {
  import opened Wrappers
  import opened Entities
  import opened FrontendTypes
  import BookingEngine

  /** Opening hour, closing hour and slot length, in hours and minutes. */
  const FirstHour: nat := 9
  const ClosingHour: nat := 18
  const SlotLength: nat := 30

  /** The number of slots offered: two per opening hour. */
  const SlotCount: nat := 2 * (ClosingHour - FirstHour)

  /** The minute of the day of the `k`-th slot. */
  function SlotMinute(k: nat): int
  {
    FirstHour * 60 + SlotLength * k
  }

  /** The two slots of an opening hour, as minutes and as text. */
  lemma HourSlots(hour: nat, k: nat)
    requires FirstHour <= hour < ClosingHour && k == 2 * (hour - FirstHour)
    ensures SlotMinute(k) < 1440 && FormatHHMM(SlotMinute(k)) == TwoDigits(hour) + ":00"
    ensures SlotMinute(k + 1) < 1440 && FormatHHMM(SlotMinute(k + 1)) == TwoDigits(hour) + ":30"
  {
    HalfHourTexts();
    assert SlotMinute(k) == hour * 60 && SlotMinute(k + 1) == hour * 60 + 30;
    assert (hour * 60) / 60 == hour && (hour * 60) % 60 == 0;
    assert (hour * 60 + 30) / 60 == hour && (hour * 60 + 30) % 60 == 30;
  }

  /** The `k`-th slot falls in hour `9 + k / 2`, on the hour for even `k` and at half past for odd `k`. */
  lemma SlotMinuteParts(k: nat)
    requires k < SlotCount
    ensures SlotMinute(k) < 1440
    ensures SlotMinute(k) / 60 == FirstHour + k / 2 && SlotMinute(k) % 60 == 30 * (k % 2)
  {
    var h, r := k / 2, k % 2;
    assert k == 2 * h + r && h < 9 && r < 2;
    assert SlotMinute(k) == 60 * (FirstHour + h) + 30 * r;
  }

  lemma HalfHourTexts()
    ensures TwoDigits(0) == "00" && TwoDigits(30) == "30"
  {
    TwoDigitsAreTensAndUnits(0);
    TwoDigitsAreTensAndUnits(30);
  }

  /** The slot loop: for each hour from 9 to 17, the ":00" slot and then the ":30" slot. */
  method GenerateTimeSlots() returns (slots: seq<string>)
    ensures |slots| == SlotCount
    ensures forall k :: 0 <= k < |slots| ==> SlotMinute(k) < 1440 && slots[k] == FormatHHMM(SlotMinute(k))
  {
    slots := [];
    for hour := FirstHour to ClosingHour
      invariant |slots| == 2 * (hour - FirstHour)
      invariant forall k :: 0 <= k < |slots| ==> SlotMinute(k) < 1440 && slots[k] == FormatHHMM(SlotMinute(k))
    {
      HourSlots(hour, |slots|);
      ghost var before := slots;
      slots := slots + [TwoDigits(hour) + ":00"];
      slots := slots + [TwoDigits(hour) + ":30"];
      forall k | 0 <= k < |slots| ensures SlotMinute(k) < 1440 && slots[k] == FormatHHMM(SlotMinute(k)) {
        if k < |before| {
          assert slots[k] == before[k];
        } else if k == |before| {
          assert slots[k] == TwoDigits(hour) + ":00";
        } else {
          assert k == |before| + 1 && slots[k] == TwoDigits(hour) + ":30";
        }
      }
    }
  }

  /** The slots run from "09:00" to "17:30". */
  lemma FirstAndLastSlot()
    ensures FormatHHMM(SlotMinute(0)) == "09:00"
    ensures FormatHHMM(SlotMinute(SlotCount - 1)) == "17:30"
  {
    HalfHourTexts();
    TwoDigitsAreTensAndUnits(9);
    TwoDigitsAreTensAndUnits(17);
  }

  /** Every slot is a zero-padded "HH:MM" whose minutes are "00" or "30", and it reads back as its minute. */
  lemma SlotShape(k: nat)
    requires k < SlotCount
    ensures var text := FormatHHMM(SlotMinute(k));
      && |text| == 5 && text[2] == ':' && (text[3..] == "00" || text[3..] == "30")
      && ClockMinutes(text) == Some(SlotMinute(k))
  {
    SlotMinuteParts(k);
    HalfHourTexts();
    var t: MinuteOfDay := SlotMinute(k);
    FormatHHMMFields(t);
    ClockMinutesOfFormattedTime(t);
    assert t % 60 == 0 || t % 60 == 30;
  }

  /** Consecutive slots read back 30 minutes apart. */
  lemma SlotsIncreaseByHalfHours(i: nat)
    requires i + 1 < SlotCount
    ensures ClockMinutes(FormatHHMM(SlotMinute(i + 1))) == Some(SlotMinute(i) + SlotLength)
  {
    SlotMinuteParts(i + 1);
    var b: MinuteOfDay := SlotMinute(i + 1);
    assert b == SlotMinute(i) + SlotLength;
    ClockMinutesOfFormattedTime(b);
  }

  /** Later slots are later times with different texts, so the list has no duplicates. */
  lemma SlotsAreDistinct(i: nat, j: nat)
    requires i < j < SlotCount
    ensures SlotMinute(i) < SlotMinute(j)
    ensures FormatHHMM(SlotMinute(i)) != FormatHHMM(SlotMinute(j))
  {
    SlotMinuteParts(i);
    SlotMinuteParts(j);
    var a: MinuteOfDay, c: MinuteOfDay := SlotMinute(i), SlotMinute(j);
    assert a < c by {
      assert SlotLength * i < SlotLength * j;
    }
    FormattedTimesDiffer(a, c);
  }

  /** The earliest date offered: the day after the reference day. */
  function MinDate(today: Date): Date
  {
    today + 1
  }

  /** Every date the picker offers passes both the request's `@Future` check and the service's
      not-in-the-past check; the reference day itself is not offered. */
  lemma OfferedDatesPassServerChecks(today: Date, d: Date)
    requires d >= MinDate(today)
    ensures BookingEngine.IsFuture(d, today) && BookingEngine.NotInPast(d, today)
    ensures today < MinDate(today)
  {
  }

  /** `services?.find(s => s.id === watchServiceId)`. */
  function CurrentService(services: Option<seq<ServiceView>>, id: Id): (r: Option<ServiceView>)
    ensures r.Some? ==> services.Some? && r.value in services.value && r.value.id == id
    ensures r.None? <==> services.None? || forall s :: s in services.value ==> s.id != id
  {
    match services
    case None => None
    case Some(list) => FirstWithId(list, id)
  }

  /** The first service in the list with this id. */
  function FirstWithId(list: seq<ServiceView>, id: Id): (r: Option<ServiceView>)
    ensures r.Some? ==> r.value in list && r.value.id == id
    ensures r.None? <==> forall s :: s in list ==> s.id != id
    ensures r.Some? ==> exists k :: 0 <= k < |list| && list[k] == r.value && forall j :: 0 <= j < k ==> list[j].id != id
    decreases |list|
  {
    if list == [] then None
    else if list[0].id == id then Some(list[0])
    else
      var r := FirstWithId(list[1..], id);
      assert r.Some? ==> exists k :: 0 <= k < |list| && list[k] == r.value && forall j :: 0 <= j < k ==> list[j].id != id by {
        if r.Some? {
          var k :| 0 <= k < |list[1..]| && list[1..][k] == r.value && forall j :: 0 <= j < k ==> list[1..][j].id != id;
          assert list[k + 1] == r.value;
          assert forall j :: 0 <= j < k + 1 ==> list[j].id != id by {
            forall j | 0 <= j < k + 1 ensures list[j].id != id {
              if j > 0 { assert list[j] == list[1..][j - 1]; }
            }
          }
        }
      }
      r
  }
}
