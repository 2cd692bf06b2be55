/** An appointment and how its card presents it
    (src/components/dashboard/AppointmentCard.tsx). */
module AppointmentCard {
  import opened Wrappers
  import opened Strings
  import opened Styles
  import opened Avatars

  datatype AppointmentType = InPerson | Video | Emergency

  datatype AppointmentStatus = Confirmed | Pending | Cancelled | Completed

  /** `time` is written "HH:MM AM"; `room` is optional. */
  datatype Appointment = Appointment(
    id: string,
    patientName: string,
    patientId: string,
    time: string,
    duration: string,
    kind: AppointmentType,
    reason: string,
    status: AppointmentStatus,
    room: Option<string>)

  /** `getStatusColor`: the badge class of each status. */
  function StatusBadge(status: AppointmentStatus): (c: BadgeClass)
    ensures c.dark && !c.hover && !c.pulse
  {
    match status
    case Confirmed => BadgeClass(Emerald, false, true, false)
    case Pending => BadgeClass(Amber, false, true, false)
    case Cancelled => BadgeClass(Slate, false, true, false)
    case Completed => BadgeClass(Blue, false, true, false)
  }

  /** The left-border colours `cn` switches on: each key of the class
      object is applied when its condition holds. */
  function BorderColors(status: AppointmentStatus): (colors: set<Palette>)
    ensures |colors| == 1
  {
    (if status == Confirmed then {Emerald} else {})
    + (if status == Pending then {Amber} else {})
    + (if status == Cancelled then {Slate} else {})
    + (if status == Completed then {Blue} else {})
  }

  /** Every status gets exactly one left border, and no two statuses share
      a badge or a border. */
  lemma StatusClassesDistinct(s: AppointmentStatus, t: AppointmentStatus)
    ensures |BorderColors(s)| == 1
    ensures s != t ==> StatusBadge(s) != StatusBadge(t) && BorderColors(s) != BorderColors(t)
  {
  }

  /** `getTypeIcon`: the video icon for video calls, the map pin otherwise. */
  function TypeIcon(kind: AppointmentType): (icon: Icon)
    ensures icon == VideoIcon <==> kind == Video
  {
    match kind
    case Video => VideoIcon
    case _ => MapPinIcon
  }

  /** The location line: "Telehealth" for a video call, otherwise the room,
      falling back to "Room TBD" when the room is missing or empty (the
      empty string is falsy for `||`). */
  function LocationLabel(apt: Appointment): (shown: string)
    ensures shown != ""
    ensures apt.kind == Video ==> shown == "Telehealth"
    ensures apt.kind != Video && apt.room.Some? && apt.room.value != "" ==> shown == apt.room.value
    ensures apt.kind != Video && (apt.room == None || apt.room == Some("")) ==> shown == "Room TBD"
  {
    if apt.kind == Video then "Telehealth"
    else match apt.room
      case Some(r) => if r != "" then r else "Room TBD"
      case None => "Room TBD"
  }

  /** The clock shown in the time box: `time.split(" ")[0]`. */
  function Clock(time: string): (clock: string)
    ensures ' ' !in clock
  {
    Split(time, ' ')[0]
  }

  /** The period shown above it: `time.split(" ")[1]`, `None` when the
      time has no space. */
  function Period(time: string): (period: Option<string>)
    ensures period.Some? ==> ' ' !in period.value
  {
    var parts := Split(time, ' ');
    if |parts| > 1 then Some(parts[1]) else None
  }

  /** A time written as a clock, a space and a period, neither with a
      space in it, shows that clock and that period. */
  lemma TimeBoxParts(clock: string, period: string)
    requires ' ' !in clock && ' ' !in period
    ensures Clock(clock + " " + period) == clock
    ensures Period(clock + " " + period) == Some(period)
  {
    SplitWithoutSeparator(clock, ' ');
    SplitWithoutSeparator(period, ' ');
    assert clock + " " + period == clock + [' '] + period;
    SplitConcat(clock, period, ' ');
  }

  /** "09:00 AM" shows "AM" over "09:00". */
  lemma TimeBoxExample()
    ensures Period("09:00 AM") == Some("AM") && Clock("09:00 AM") == "09:00"
  {
    TimeBoxParts("09:00", "AM");
    assert "09:00" + " " + "AM" == "09:00 AM";
  }

  /** Everything the card derives from its appointment. */
  datatype CardView = CardView(
    period: Option<string>,
    clock: string,
    badge: BadgeClass,
    borders: set<Palette>,
    icon: Icon,
    location: string,
    initials: string)

  /** What one card shows: the time box, the status badge and border, the
      type icon, where the visit happens and the avatar initials. */
  function View(apt: Appointment): (v: CardView)
    ensures |v.initials| <= 2
    ensures |v.borders| == 1
    ensures v.location != ""
    ensures (v.icon == VideoIcon) == (apt.kind == Video)
    ensures apt.kind == Video ==> v.location == "Telehealth"
  {
    StatusClassesDistinct(apt.status, apt.status);
    CardView(Period(apt.time), Clock(apt.time), StatusBadge(apt.status), BorderColors(apt.status),
             TypeIcon(apt.kind), LocationLabel(apt), GetInitials(apt.patientName))
  }
}
