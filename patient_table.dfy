/** The roster table (src/components/dashboard/PatientTable.tsx): the status
    badge of each row and its avatar initials (`Avatars.GetInitials`). */
module PatientTable {
  import opened Types
  import opened Styles

  /** The plain class `getStatusColor` falls back to. */
  const PlainBadge: BadgeClass := BadgeClass(Slate, false, false, false)

  /** `getStatusColor`: the switch on the status string. */
  function StatusColor(status: string): (c: BadgeClass)
    ensures c.pulse <==> status == "Critical"
    ensures c.hover <==> status in ["Stable", "Critical", "Observation", "Waiting"]
    ensures c.dark == c.hover
    ensures !c.hover ==> c == PlainBadge
  {
    match status
    case "Stable" => BadgeClass(Emerald, true, true, false)
    case "Critical" => BadgeClass(Rose, true, true, true)
    case "Observation" => BadgeClass(Amber, true, true, false)
    case "Waiting" => BadgeClass(Slate, true, true, false)
    case _ => PlainBadge
  }

  /** The badge of a patient's status. Discharged patients, which the
      switch does not name, get the plain class; only a critical patient's
      badge pulses. */
  function PatientBadge(status: PatientStatus): (c: BadgeClass)
    ensures c == PlainBadge <==> status == Discharged
    ensures c.pulse <==> status == Critical
  {
    StatusColor(StatusName(status))
  }

  /** Different statuses get different badges, so the badge alone tells
      a row's status. */
  lemma PatientBadgesDistinct(a: PatientStatus, b: PatientStatus)
    requires a != b
    ensures PatientBadge(a) != PatientBadge(b)
  {
  }
}
