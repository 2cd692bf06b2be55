/** The records the dashboard exchanges with its worker (shared/types.ts). */
module Types {

  datatype PatientStatus = Stable | Critical | Observation | Discharged | Waiting

  /** The string literal each status is written as. */
  function StatusName(s: PatientStatus): string {
    match s
    case Stable => "Stable"
    case Critical => "Critical"
    case Observation => "Observation"
    case Discharged => "Discharged"
    case Waiting => "Waiting"
  }

  datatype Gender = Male | Female | Other

  /** Temperatures are kept in tenths of a degree Celsius (36.8 is 368). */
  datatype PatientVitals = PatientVitals(
    heartRate: int,
    bloodPressure: string,
    o2Saturation: int,
    temperatureTenths: int)

  datatype Patient = Patient(
    id: string,
    name: string,
    age: int,
    gender: Gender,
    condition: string,
    status: PatientStatus,
    roomNumber: string,
    admissionDate: string,
    lastVisit: string,
    vitals: PatientVitals)

  datatype User = User(id: string, name: string)

  datatype Chat = Chat(id: string, title: string)

  /** `ts` is a millisecond timestamp. */
  datatype ChatMessage = ChatMessage(id: string, chatId: string, userId: string, text: string, ts: int)
}
