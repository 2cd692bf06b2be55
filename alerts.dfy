/** The alerts page (src/pages/AlertsPage.tsx): the patients that need
    attention, and the card each of them gets. */
module Alerts {
  import opened Seqs
  import opened Types

  /** The status test of line 21: Critical or Observation. */
  predicate IsAlert(p: Patient)
    ensures IsAlert(p) <==> p.status !in {Stable, Waiting, Discharged}
  {
    p.status == Critical || p.status == Observation
  }

  function AlertTest(): Patient -> bool {
    (p: Patient) => IsAlert(p)
  }

  /** The alert list built from the fetched roster. */
  function AlertList(items: seq<Patient>): (alerts: seq<Patient>)
    ensures |alerts| <= |items|
    ensures forall p :: p in alerts ==> p in items && IsAlert(p)
  {
    Filter(items, AlertTest())
  }

  /** The outcome of fetching the roster; the request itself is not modelled. */
  datatype FetchOutcome = Fetched(items: seq<Patient>) | FetchFailed

  /** `criticalPatients` once the fetch has settled: the alert list on
      success; on failure it keeps its initial value, the empty list. */
  function AlertsAfterFetch(outcome: FetchOutcome): (alerts: seq<Patient>)
    ensures outcome.FetchFailed? ==> alerts == []
  {
    match outcome
    case Fetched(items) => AlertList(items)
    case FetchFailed => []
  }

  /** The card title. */
  function AlertTitle(status: PatientStatus): (title: string)
    ensures title == "Critical Vitals Alert" <==> status == Critical
    ensures title == "Observation Required" <==> status != Critical
  {
    if status == Critical then "Critical Vitals Alert" else "Observation Required"
  }

  datatype BadgeVariant = Destructive | Outline

  /** The variant of the status badge. */
  function AlertBadge(status: PatientStatus): (variant: BadgeVariant)
    ensures variant == Destructive <==> status == Critical
  {
    if status == Critical then Destructive else Outline
  }

  /** What one alert card shows. */
  datatype AlertCard = AlertCard(
    patientId: string,
    title: string,
    badge: BadgeVariant,
    status: string,
    patientName: string,
    room: string,
    heartRate: int,
    bloodPressure: string)

  function Card(p: Patient): (c: AlertCard)
    ensures c.patientId == p.id && c.status == StatusName(p.status)
    ensures c.title == "Critical Vitals Alert" <==> c.badge == Destructive
  {
    AlertCard(p.id, AlertTitle(p.status), AlertBadge(p.status), StatusName(p.status),
              p.name, p.roomNumber, p.vitals.heartRate, p.vitals.bloodPressure)
  }

  /** The three branches of the page body. */
  datatype AlertsView = Loading | AllClear | Cards(cards: seq<AlertCard>)

  function View(isLoading: bool, alerts: seq<Patient>): (v: AlertsView)
    ensures isLoading <==> v == Loading
    ensures v == AllClear <==> !isLoading && alerts == []
    ensures v.Cards? ==> |v.cards| == |alerts| > 0
    ensures v.Cards? ==> forall i :: 0 <= i < |alerts| ==> v.cards[i] == Card(alerts[i])
  {
    if isLoading then Loading
    else if |alerts| == 0 then AllClear
    else Cards(seq(|alerts|, i requires 0 <= i < |alerts| => Card(alerts[i])))
  }

  /** The alert list holds exactly the Critical and Observation patients of
      the roster, in roster order and with their multiplicities; stable,
      waiting and discharged patients never appear in it. */
  lemma AlertListContents(items: seq<Patient>)
    ensures IsSubsequence(AlertList(items), items)
    ensures forall p :: p in AlertList(items) <==> p in items && (p.status == Critical || p.status == Observation)
    ensures forall p :: multiset(AlertList(items))[p] == (if IsAlert(p) then multiset(items)[p] else 0)
    ensures forall p :: p in AlertList(items) ==> p.status !in {Stable, Waiting, Discharged}
  {
    FilterIsSubsequence(items, AlertTest());
    forall p ensures p in AlertList(items) <==> p in items && IsAlert(p) {
      FilterMembership(items, AlertTest(), p);
    }
    forall p ensures multiset(AlertList(items))[p] == (if IsAlert(p) then multiset(items)[p] else 0) {
      FilterMultiplicity(items, AlertTest(), p);
    }
  }

  /** Once loaded, the page shows "All Clear" exactly when no patient of the
      roster is Critical or under Observation. */
  lemma AllClearIffNoAlerts(items: seq<Patient>)
    ensures View(false, AlertsAfterFetch(Fetched(items))) == AllClear
      <==> forall i :: 0 <= i < |items| ==> items[i].status != Critical && items[i].status != Observation
  {
    FilterDropsAll(items, AlertTest());
  }

  /** A failed fetch also ends on "All Clear": the page does not tell a
      roster without alerts from one it could not load. */
  lemma FailedFetchShowsAllClear()
    ensures View(false, AlertsAfterFetch(FetchFailed)) == AllClear
  {
  }

  /** A roster of alerts only is shown whole, one card per patient. */
  lemma AllAlertsShown(items: seq<Patient>)
    requires forall i :: 0 <= i < |items| ==> IsAlert(items[i])
    ensures AlertList(items) == items
  {
    FilterKeepsAll(items, AlertTest());
  }
}
