/** The daily schedule (src/pages/SchedulePage.tsx): the day's appointments,
    the hourly slots they are placed in by reading their "HH:MM AM" times,
    and the quick statistics. Whether the selected date is today comes in
    as `isToday`. */
module Schedule {
  import opened Wrappers
  import opened Strings
  import opened Seqs
  import opened AppointmentCard

  const MockAppointments: seq<Appointment> := [
    Appointment("apt-1", "Eleanor Rigby", "p-101", "09:00 AM", "30 min", InPerson,
                "Hypertension Follow-up", Confirmed, Some("304-A")),
    Appointment("apt-2", "Jude Lawton", "p-104", "10:30 AM", "45 min", InPerson,
                "Diabetes Management Review", Confirmed, Some("105-C")),
    Appointment("apt-3", "Maxwell Edison", "p-106", "01:00 PM", "15 min", Video,
                "Post-op Check-in", Pending, None),
    Appointment("apt-4", "Molly Singer", "p-103", "02:15 PM", "30 min", InPerson,
                "Routine Physical", Cancelled, Some("201-B"))
  ]

  const TimeSlots: seq<string> := [
    "08:00 AM", "09:00 AM", "10:00 AM", "11:00 AM",
    "12:00 PM", "01:00 PM", "02:00 PM", "03:00 PM",
    "04:00 PM", "05:00 PM"
  ]

  /** The mock list on today's date, nothing on any other. */
  function DailyAppointments(isToday: bool): (daily: seq<Appointment>)
    ensures !isToday ==> daily == []
    ensures isToday ==> daily == MockAppointments && |daily| == 4
  {
    if isToday then MockAppointments else []
  }

  /** `parseInt(time.split(":")[0])`. */
  function HourOf(time: string): Option<int> {
    ParseInt(Split(time, ':')[0])
  }

  /** JavaScript `===` on two numbers, `None` being `NaN`, which equals nothing. */
  predicate SameNumber(a: Option<int>, b: Option<int>) {
    a.Some? && b.Some? && a.value == b.value
  }

  /** The test `getAppointmentsForSlot` filters with. Periods are compared
      as strings (two missing periods are both `undefined`, and equal). */
  predicate InSlot(slotTime: string, apt: Appointment) {
    var slotHour, slotPeriod := HourOf(slotTime), Period(slotTime);
    var aptHour, aptPeriod := HourOf(apt.time), Period(apt.time);
    if slotPeriod != aptPeriod then false
    else if SameNumber(slotHour, Some(12)) then SameNumber(aptHour, Some(12))
    else SameNumber(aptHour, slotHour)
  }

  function SlotTest(slotTime: string): Appointment -> bool {
    (apt: Appointment) => InSlot(slotTime, apt)
  }

  /** `getAppointmentsForSlot`. */
  function AppointmentsForSlot(daily: seq<Appointment>, slotTime: string): (shown: seq<Appointment>)
    ensures |shown| <= |daily|
    ensures forall a :: a in shown ==> a in daily && InSlot(slotTime, a)
  {
    Filter(daily, SlotTest(slotTime))
  }

  /** The slot's appointments are the day's appointments that match it,
      in the day's order, each as often as it is in the day's list. */
  lemma SlotContents(daily: seq<Appointment>, slotTime: string)
    ensures IsSubsequence(AppointmentsForSlot(daily, slotTime), daily)
    ensures forall a :: a in AppointmentsForSlot(daily, slotTime) <==> a in daily && InSlot(slotTime, a)
    ensures forall a ::
      multiset(AppointmentsForSlot(daily, slotTime))[a] == if InSlot(slotTime, a) then multiset(daily)[a] else 0
  {
    FilterIsSubsequence(daily, SlotTest(slotTime));
    forall a ensures a in AppointmentsForSlot(daily, slotTime) <==> a in daily && InSlot(slotTime, a) {
      FilterMembership(daily, SlotTest(slotTime), a);
    }
    forall a ensures multiset(AppointmentsForSlot(daily, slotTime))[a]
      == if InSlot(slotTime, a) then multiset(daily)[a] else 0 {
      FilterMultiplicity(daily, SlotTest(slotTime), a);
    }
  }

  /** An appointment is in a slot exactly when both periods are the same
      and both hours are the same number; the separate branch for the
      12 o'clock slot agrees with this general rule. */
  lemma InSlotIff(slotTime: string, apt: Appointment)
    ensures InSlot(slotTime, apt) <==>
      Period(slotTime) == Period(apt.time) && SameNumber(HourOf(apt.time), HourOf(slotTime))
  {
  }

  /** The number two decimal digits denote. */
  lemma TwoDigits(d1: char, d2: char)
    ensures DigitsValue([d1, d2], 10) == DigitValue(d1) * 10 + DigitValue(d2)
  {
    assert [d1, d2][..1] == [d1];
    assert [d1][..0] == [];
    assert DigitsValue([d1], 10) == DigitValue(d1);
  }

  /** A time that starts with two digits and a colon has the hour those
      digits denote. */
  lemma HourKey(d1: char, d2: char, rest: string)
    requires IsDecimalDigit(d1) && IsDecimalDigit(d2)
    ensures HourOf([d1, d2] + ":" + rest) == Some(DigitValue(d1) * 10 + DigitValue(d2))
  {
    var hh := [d1, d2];
    assert hh + ":" + rest == hh + [':'] + rest;
    SplitConcat(hh, rest, ':');
    SplitWithoutSeparator(hh, ':');
    assert Split(hh + ":" + rest, ':')[0] == hh;
    ParseDecimal(hh);
    TwoDigits(d1, d2);
  }

  /** A time "HH:MM P" has the period P. */
  lemma PeriodKey(d1: char, d2: char, minutes: string, period: string)
    requires IsDecimalDigit(d1) && IsDecimalDigit(d2)
    requires ' ' !in minutes && ' ' !in period
    ensures Period([d1, d2] + ":" + minutes + " " + period) == Some(period)
  {
    assert ' ' !in [d1, d2] + ":" + minutes;
    TimeBoxParts([d1, d2] + ":" + minutes, period);
  }

  /** A time "HH:MM P" has the hour HH and the period P, whatever its minutes. */
  lemma TimeKey(d1: char, d2: char, minutes: string, period: string)
    requires IsDecimalDigit(d1) && IsDecimalDigit(d2)
    requires ' ' !in minutes && ' ' !in period
    ensures HourOf([d1, d2] + ":" + minutes + " " + period) == Some(DigitValue(d1) * 10 + DigitValue(d2))
    ensures Period([d1, d2] + ":" + minutes + " " + period) == Some(period)
  {
    assert [d1, d2] + ":" + minutes + " " + period == [d1, d2] + ":" + (minutes + " " + period);
    HourKey(d1, d2, minutes + " " + period);
    PeriodKey(d1, d2, minutes, period);
  }

  /** Only the hour before the colon counts: two times that differ only in
      their minutes fall in the same slots. */
  lemma MinutesIgnored(slotTime: string, apt: Appointment, d1: char, d2: char, m1: string, m2: string, period: string)
    requires IsDecimalDigit(d1) && IsDecimalDigit(d2)
    requires ' ' !in m1 && ' ' !in m2 && ' ' !in period
    ensures InSlot(slotTime, apt.(time := [d1, d2] + ":" + m1 + " " + period))
        == InSlot(slotTime, apt.(time := [d1, d2] + ":" + m2 + " " + period))
  {
    TimeKey(d1, d2, m1, period);
    TimeKey(d1, d2, m2, period);
  }

  /** Every slot is written as two digits, ":00", a space and "AM" or "PM". */
  lemma SlotForm(s: string) returns (d1: char, d2: char, period: string)
    requires s in TimeSlots
    ensures IsDecimalDigit(d1) && IsDecimalDigit(d2) && (period == "AM" || period == "PM")
    ensures s == [d1, d2] + ":" + "00" + " " + period
  {
    if s == "08:00 AM" {
      d1, d2, period := '0', '8', "AM";
    } else if s == "09:00 AM" {
      d1, d2, period := '0', '9', "AM";
    } else if s == "10:00 AM" {
      d1, d2, period := '1', '0', "AM";
    } else if s == "11:00 AM" {
      d1, d2, period := '1', '1', "AM";
    } else if s == "12:00 PM" {
      d1, d2, period := '1', '2', "PM";
    } else if s == "01:00 PM" {
      d1, d2, period := '0', '1', "PM";
    } else if s == "02:00 PM" {
      d1, d2, period := '0', '2', "PM";
    } else if s == "03:00 PM" {
      d1, d2, period := '0', '3', "PM";
    } else if s == "04:00 PM" {
      d1, d2, period := '0', '4', "PM";
    } else {
      d1, d2, period := '0', '5', "PM";
    }
  }

  /** A time "HH:00 P" reads as the hour HH. */
  lemma SlotHour(s: string, d1: char, d2: char, period: string)
    requires IsDecimalDigit(d1) && IsDecimalDigit(d2) && ' ' !in period
    requires s == [d1, d2] + ":" + "00" + " " + period
    ensures HourOf(s) == Some(DigitValue(d1) * 10 + DigitValue(d2))
  {
    TimeKey(d1, d2, "00", period);
  }

  /** A time "HH:00 P" reads as the period P. */
  lemma SlotPeriod(s: string, d1: char, d2: char, period: string)
    requires IsDecimalDigit(d1) && IsDecimalDigit(d2) && ' ' !in period
    requires s == [d1, d2] + ":" + "00" + " " + period
    ensures Period(s) == Some(period)
  {
    TimeKey(d1, d2, "00", period);
  }

  /** Two decimal digits are determined by the number they denote. */
  lemma TwoDigitsInjective(a: char, b: char, c: char, d: char)
    requires IsDecimalDigit(a) && IsDecimalDigit(b) && IsDecimalDigit(c) && IsDecimalDigit(d)
    requires DigitValue(a) * 10 + DigitValue(b) == DigitValue(c) * 10 + DigitValue(d)
    ensures a == c && b == d
  {
  }

  /** No appointment is placed in two slots: no two slots share an
      (hour, period) pair. */
  lemma AtMostOneSlot(apt: Appointment, s1: string, s2: string)
    requires s1 in TimeSlots && s2 in TimeSlots
    requires InSlot(s1, apt) && InSlot(s2, apt)
    ensures s1 == s2
  {
    var a, b, p := SlotForm(s1);
    var c, d, q := SlotForm(s2);
    SlotHour(s1, a, b, p);
    SlotPeriod(s1, a, b, p);
    SlotHour(s2, c, d, q);
    SlotPeriod(s2, c, d, q);
    InSlotIff(s1, apt);
    InSlotIff(s2, apt);
    TwoDigitsInjective(a, b, c, d);
  }

  /** So an appointment of the day shows up in at most one slot list. */
  lemma ShownOnce(daily: seq<Appointment>, apt: Appointment, s1: string, s2: string)
    requires s1 in TimeSlots && s2 in TimeSlots
    requires apt in AppointmentsForSlot(daily, s1) && apt in AppointmentsForSlot(daily, s2)
    ensures s1 == s2
  {
    SlotContents(daily, s1);
    SlotContents(daily, s2);
    AtMostOneSlot(apt, s1, s2);
  }

  function HasStatus(status: AppointmentStatus): Appointment -> bool {
    (apt: Appointment) => apt.status == status
  }

  /** The status of each of the day's appointments, in order. */
  function Statuses(daily: seq<Appointment>): (r: seq<AppointmentStatus>)
    ensures |r| == |daily|
    ensures forall i :: 0 <= i < |daily| ==> r[i] == daily[i].status
  {
    seq(|daily|, i requires 0 <= i < |daily| => daily[i].status)
  }

  /** Filtering on a status keeps one appointment per occurrence of that
      status among the day's. */
  lemma {:induction false} CountIsOccurrences(daily: seq<Appointment>, status: AppointmentStatus)
    ensures |Filter(daily, HasStatus(status))| == multiset(Statuses(daily))[status]
    decreases |daily|
  {
    if |daily| > 0 {
      CountIsOccurrences(daily[1..], status);
      assert Statuses(daily) == [daily[0].status] + Statuses(daily[1..]);
    }
  }

  /** `dailyAppointments.filter(a => a.status === s).length`. */
  function CountWithStatus(daily: seq<Appointment>, status: AppointmentStatus): (n: nat)
    ensures n == multiset(Statuses(daily))[status]
    ensures n <= |daily|
    ensures n == 0 <==> forall i :: 0 <= i < |daily| ==> daily[i].status != status
  {
    FilterDropsAll(daily, HasStatus(status));
    CountIsOccurrences(daily, status);
    |Filter(daily, HasStatus(status))|
  }

  /** The three figures of the quick-stats card. */
  datatype QuickStats = QuickStats(total: nat, confirmed: nat, pending: nat)

  function Stats(daily: seq<Appointment>): (q: QuickStats)
    ensures q.total == |daily| && q.confirmed <= q.total && q.pending <= q.total
    ensures q.confirmed == multiset(Statuses(daily))[Confirmed]
    ensures q.pending == multiset(Statuses(daily))[Pending]
  {
    QuickStats(|daily|, CountWithStatus(daily, Confirmed), CountWithStatus(daily, Pending))
  }

  /** Confirmed and pending appointments together are never more than all
      appointments. */
  lemma StatsBound(daily: seq<Appointment>)
    ensures Stats(daily).confirmed + Stats(daily).pending <= Stats(daily).total
  {
    FilterDisjointLength(daily, HasStatus(Confirmed), HasStatus(Pending));
  }

  /** On any day but today there is nothing: every slot is empty and every
      figure is 0. */
  lemma OtherDayIsEmpty(slotTime: string)
    ensures AppointmentsForSlot(DailyAppointments(false), slotTime) == []
    ensures Stats(DailyAppointments(false)) == QuickStats(0, 0, 0)
  {
  }

  lemma NineAm(t: string)
    requires t == "09:00 AM"
    ensures HourOf(t) == Some(9) && Period(t) == Some("AM")
  {
    assert t == ['0', '9'] + ":" + "00" + " " + "AM";
    TimeKey('0', '9', "00", "AM");
  }

  lemma TenThirtyAm(t: string)
    requires t == "10:30 AM"
    ensures HourOf(t) == Some(10) && Period(t) == Some("AM")
  {
    assert t == ['1', '0'] + ":" + "30" + " " + "AM";
    TimeKey('1', '0', "30", "AM");
  }

  lemma OnePm(t: string)
    requires t == "01:00 PM"
    ensures HourOf(t) == Some(1) && Period(t) == Some("PM")
  {
    assert t == ['0', '1'] + ":" + "00" + " " + "PM";
    TimeKey('0', '1', "00", "PM");
  }

  lemma TwoFifteenPm(t: string)
    requires t == "02:15 PM"
    ensures HourOf(t) == Some(2) && Period(t) == Some("PM")
  {
    assert t == ['0', '2'] + ":" + "15" + " " + "PM";
    TimeKey('0', '2', "15", "PM");
  }

  /** The hours and periods of today's mock appointments: 9 AM, 10 AM
      (at 10:30), 1 PM and 2 PM (at 2:15). */
  lemma MockKeys(daily: seq<Appointment>)
    requires daily == MockAppointments
    ensures HourOf(daily[0].time) == Some(9) && Period(daily[0].time) == Some("AM")
    ensures HourOf(daily[1].time) == Some(10) && Period(daily[1].time) == Some("AM")
    ensures HourOf(daily[2].time) == Some(1) && Period(daily[2].time) == Some("PM")
    ensures HourOf(daily[3].time) == Some(2) && Period(daily[3].time) == Some("PM")
  {
    NineAm(daily[0].time);
    TenThirtyAm(daily[1].time);
    OnePm(daily[2].time);
    TwoFifteenPm(daily[3].time);
  }

  lemma TenAm(t: string)
    requires t == "10:00 AM"
    ensures HourOf(t) == Some(10) && Period(t) == Some("AM")
  {
    assert t == ['1', '0'] + ":" + "00" + " " + "AM";
    TimeKey('1', '0', "00", "AM");
  }

  lemma TwoPm(t: string)
    requires t == "02:00 PM"
    ensures HourOf(t) == Some(2) && Period(t) == Some("PM")
  {
    assert t == ['0', '2'] + ":" + "00" + " " + "PM";
    TimeKey('0', '2', "00", "PM");
  }

  /** The slot list of `s` over the four mock appointments, one by one. */
  lemma MockSlot(daily: seq<Appointment>, s: string)
    requires daily == MockAppointments
    ensures AppointmentsForSlot(daily, s) ==
      (if InSlot(s, daily[0]) then [daily[0]] else [])
      + ((if InSlot(s, daily[1]) then [daily[1]] else [])
         + ((if InSlot(s, daily[2]) then [daily[2]] else []) + (if InSlot(s, daily[3]) then [daily[3]] else [])))
  {
    var a0, a1, a2, a3 := daily[0], daily[1], daily[2], daily[3];
    FilterFour(daily, SlotTest(s));
    FilterSingleton(a0, SlotTest(s));
    FilterSingleton(a1, SlotTest(s));
    FilterSingleton(a2, SlotTest(s));
    FilterSingleton(a3, SlotTest(s));
  }

  /** The 10:30 appointment is listed under the 10:00 AM slot, alone. */
  lemma TenOClockSlot(daily: seq<Appointment>, s: string)
    requires daily == MockAppointments && s == "10:00 AM"
    ensures AppointmentsForSlot(daily, s) == [daily[1]]
  {
    MockKeys(daily);
    TenAm(s);
    MockSlot(daily, s);
  }

  /** The 2:15 appointment is listed under the 02:00 PM slot, alone. */
  lemma TwoOClockSlot(daily: seq<Appointment>, s: string)
    requires daily == MockAppointments && s == "02:00 PM"
    ensures AppointmentsForSlot(daily, s) == [daily[3]]
  {
    MockKeys(daily);
    TwoPm(s);
    MockSlot(daily, s);
  }

  /** Today's figures: four appointments, two confirmed, one pending. */
  lemma MockStats()
    ensures Stats(MockAppointments) == QuickStats(4, 2, 1)
  {
    var m := MockAppointments;
    assert m[1..] == [m[1], m[2], m[3]];
    assert m[2..] == [m[2], m[3]];
    assert m[3..] == [m[3]];
  }
}
