# MediPulse Pro clinical command center: a Dafny model

This project models the logic of the MediPulse Pro hospital dashboard and
proves properties of it. The pieces modelled are:

- The worker's **chat board entity**. `sendMessage` appends one message to
  the stored board; `listMessages` reads it back. The seed boards group
  the mock messages by chat.
- The **seed and default records**.
- The **daily schedule**. Appointments are put into hourly slots by
  reading their "HH:MM AM" times with `parseInt` and `split`. The page
  also shows quick statistics.
- The **patient roster search**. It is case-insensitive and matches on
  name or id.
- The **patient table**. This covers each row's avatar initials and its
  status badge.
- The **alerts page**. It keeps the Critical and Observation patients and
  gives each a title and a badge.
- The **admission dialog**. This covers its form schema, its default
  values, the open/submitting transitions of a submission, and the
  re-validation of the fields once a submit has been attempted.
- The **clinical notes panel**. This covers saving a note, the add toggle
  and Cancel.
- The **appointment card**. This covers the time box, location label,
  icon, initials and status classes.

The JavaScript behaviours the logic relies on are written out:

- `Array.prototype.filter` (`Seqs`).
- ASCII `toLowerCase`/`toUpperCase`, `includes`, `split`/`join`, `trim`
  and `parseInt` (`Strings`). `parseInt` covers leading whitespace, a sign
  and the `0x` prefix, and yields NaN when no digit is read.
- `undefined` and `NaN` are `None` (`Wrappers`). `NaN === NaN` is false,
  and `undefined === undefined` is true.

Three kinds of state are modelled as classes whose methods update their
fields:

- `Entities.ChatBoardEntity`: an entity key and the one record stored
  under it.
- `AdmitPatient.AdmitDialog`.
- `ClinicalNotes.NotesPanel`.

Everything else is functions over datatypes. Inputs from the environment
are parameters:

- message and note ids (`crypto.randomUUID()`);
- clock readings (`Date.now()`, `new Date()`);
- ISO date formatting;
- whether the selected date is today;
- whether the POST to the server succeeded;
- the mock chats and mock chat messages.

CSS class strings are reduced to what tells one branch from another: a
colour family, whether a hover shade and a dark shade are given, and
whether the badge pulses. Temperatures are kept in tenths of a degree.

## Model

| member | source | states |
|---|---|---|
| Seqs.Filter | src/pages/PatientsPage.tsx:29 | `filter` keeps no more elements than it is given, and only elements of the input that pass the test |
| Seqs.FilterIsSubsequence | src/pages/SchedulePage.tsx:76 | the result of `filter` is a subsequence of its input: kept elements stay in their original order |
| Seqs.FilterMembership | src/pages/AlertsPage.tsx:21 | an element is in the result iff it is in the input and passes the test |
| Seqs.FilterMultiplicity | worker/entities.ts:18 | each passing element occurs in the result as often as in the input; each failing element does not occur |
| Seqs.FilterKeepsAll | src/pages/PatientsPage.tsx:29-32 | `filter` returns its input unchanged iff every element passes |
| Seqs.FilterDropsAll | src/pages/AlertsPage.tsx:54 | `filter` returns the empty list iff no element passes |
| Seqs.FilterCongruent | src/pages/PatientsPage.tsx:30-31 | two tests that agree on every element give the same result |
| Seqs.FilterMonotone | src/pages/PatientsPage.tsx:30-31 | if one test implies another on the input, its result is a subsequence of the other's |
| Seqs.FilterDisjointLength | src/pages/SchedulePage.tsx:125-131 | two tests that no element passes together keep at most as many elements, in total, as the input has |
| Seqs.FilterConcat | src/pages/SchedulePage.tsx:76 | filtering a concatenation is the concatenation of the filtered parts |
| Strings.LowerChar | src/pages/PatientsPage.tsx:30 | a capital becomes a small letter and every other character is left as it is; no capital remains |
| Strings.UpperChar | src/components/dashboard/PatientTable.tsx:49 | a small letter becomes a capital and every other character is left as it is; no small letter remains |
| Strings.CaseRoundTrip | src/components/dashboard/PatientTable.tsx:49 | raising a lowered capital, or lowering a raised small letter, gives the letter back, so each letter maps to its own letter in the other case |
| Strings.ToLowerCase | src/pages/PatientsPage.tsx:30 | `toLowerCase` keeps the length and lowers each character in place |
| Strings.ToUpperCase | src/components/dashboard/PatientTable.tsx:49 | `toUpperCase` keeps the length and raises each character in place |
| Strings.LowerForgetsCase | src/pages/PatientsPage.tsx:30-31 | lowering an upper-cased string gives the same as lowering the original; lowering is idempotent |
| Strings.Includes | src/pages/PatientsPage.tsx:30 | `includes`: a string never includes a longer one |
| Strings.IncludesAt | src/pages/PatientsPage.tsx:30 | a string includes every slice of itself |
| Strings.IncludesPosition | src/pages/PatientsPage.tsx:30 | if a string includes another, that other occurs at some position |
| Strings.IncludesTransitive | src/pages/PatientsPage.tsx:30-31 | `includes` is transitive |
| Strings.IncludesLowered | src/pages/PatientsPage.tsx:30-31 | inclusion survives lowering both strings |
| Strings.Split | src/pages/SchedulePage.tsx:74 | `split` yields at least one piece, and no piece contains the separator |
| Strings.Join | src/components/dashboard/PatientTable.tsx:48 | `join`; `JoinSplit` and `SplitJoin` state it is the inverse of `split` |
| Strings.JoinSplit | src/pages/SchedulePage.tsx:74 | joining the pieces of `split` with its separator gives back the string |
| Strings.SplitWithoutSeparator | src/pages/SchedulePage.tsx:75 | a string without the separator splits into itself alone |
| Strings.SplitConcat | src/pages/SchedulePage.tsx:75 | splitting `a + sep + b` gives the pieces of `a` followed by the pieces of `b` |
| Strings.SplitJoin | src/pages/SchedulePage.tsx:74 | splitting a join of separator-free pieces gives back the pieces |
| Strings.TrimStart | src/components/patient/ClinicalNotes.tsx:34 | the result is a suffix of the input; everything dropped is whitespace; the result does not start with whitespace |
| Strings.TrimEnd | src/components/patient/ClinicalNotes.tsx:34 | the result is a prefix of the input; everything dropped is whitespace; the result does not end with whitespace |
| Strings.Trim | src/components/patient/ClinicalNotes.tsx:34 | `trim` is never longer than its input, and a non-empty result neither starts nor ends with whitespace |
| Strings.TrimEmptyIffBlank | src/components/patient/ClinicalNotes.tsx:34 | `trim()` is empty iff every character is ECMAScript whitespace |
| Strings.DigitValue | src/pages/SchedulePage.tsx:74 | a character's digit value is below 10 exactly for the decimal digits |
| Strings.DigitPrefix | src/pages/SchedulePage.tsx:74 | `parseInt` reads the longest prefix of digits valid in the radix |
| Strings.ParseInt | src/pages/SchedulePage.tsx:74 | `parseInt` with no radix; `ParseDecimal`, `DecimalDigitPrefix` and `ParseNaN` state its values |
| Strings.ParseDecimal | src/pages/SchedulePage.tsx:74 | `parseInt` of a non-empty string of decimal digits is the number they denote |
| Strings.DecimalDigitPrefix | src/pages/SchedulePage.tsx:77 | a string of decimal digits is read whole |
| Strings.ParseNaN | src/pages/SchedulePage.tsx:77 | `parseInt` of a string that is empty, or starts with no digit, sign or whitespace, is NaN |
| Entities.InitialStates | worker/entities.ts:23 | the chat board default has no id, no title and no messages; the user default (line 12) has no id and no name; the patient default (lines 113-124) is blank, of gender Other, Stable, and no seeded patient is blank |
| Entities.AppendMessage | worker/entities.ts:31 | the update keeps id and title, adds exactly one message at the end and leaves the earlier messages unchanged and in order |
| Entities.SeedChatBoards | worker/entities.ts:16-19 | there is one seeded board per mock chat |
| Entities.SeedChatBoardContents | worker/entities.ts:16-19 | board i carries chat i's id and title; its messages are exactly the mock messages posted to that chat, in their order and with their multiplicities |
| Entities.SeedPatients | worker/entities.ts:36-109 | six seeded patients, none of them Discharged |
| Entities.SeedPatientsFacts | worker/entities.ts:36-109 | six seeded patients with ids p-101 to p-106, pairwise distinct and non-empty; p-102 is Desmond Jones, Critical |
| Entities.ChatBoardEntity.constructor | worker/entities.ts:20-24 | an entity is its key and the record stored under it |
| Entities.ChatBoardEntity.GetState | worker/entities.ts:26 | `getState` returns the stored record and changes nothing |
| Entities.ChatBoardEntity.Mutate | worker/entities.ts:31 | `mutate` replaces the stored record by the function applied to it and returns the new record |
| Entities.ChatBoardEntity.ListMessages | worker/entities.ts:25-28 | `listMessages` returns the stored messages and changes nothing |
| Entities.ChatBoardEntity.SendMessage | worker/entities.ts:29-33 | the returned message carries the given id, the board's key as `chatId`, the sender, the text and the timestamp; it is appended at the end; the earlier messages, the id and the title are unchanged |
| Entities.SendToEmptyBoard | worker/entities.ts:23-33 | a board in the default state lists no messages; after one send it lists exactly that message |
| Avatars.FirstChars | src/components/dashboard/PatientTable.tsx:47 | `map(n => n[0])` yields one entry per word |
| Avatars.GetInitials | src/components/dashboard/PatientTable.tsx:44-51 | `getInitials` returns at most two characters, none of them a lower-case letter |
| Avatars.Words | src/components/dashboard/PatientTable.tsx:46-48 | every word that contributes an initial is non-empty |
| Avatars.Heads | src/components/dashboard/PatientTable.tsx:47-48 | one first character per word, for words that are all non-empty |
| Avatars.JoinedFirstChars | src/components/dashboard/PatientTable.tsx:47-48 | joining the first characters (with `undefined` joining as "") gives the first characters of the non-empty words |
| Avatars.InitialsOfWords | src/components/dashboard/PatientTable.tsx:44-51 | the initials are the upper-cased first characters of the first two non-empty words, as many as there are words up to two |
| Avatars.SameWordsSameInitials | src/components/dashboard/PatientTable.tsx:46-51 | names with the same words have the same initials |
| Avatars.DoubledSpaceIgnored | src/components/dashboard/PatientTable.tsx:46-48 | a doubled space between two parts of a name leaves the initials unchanged |
| Avatars.LeadingSpaceIgnored | src/components/dashboard/PatientTable.tsx:46-48 | a leading space leaves the initials unchanged |
| Avatars.TrailingSpaceIgnored | src/components/dashboard/PatientTable.tsx:46-48 | a trailing space leaves the initials unchanged |
| Avatars.InitialsOfEmptyName | src/components/dashboard/PatientTable.tsx:46-50 | the empty name has empty initials |
| Avatars.TwoWordInitials | src/components/dashboard/PatientTable.tsx:44-51 | a first and a last name without spaces give the two upper-cased first letters |
| Avatars.InitialsOfEleanorRigby | src/components/dashboard/PatientTable.tsx:44-51 | "Eleanor Rigby" has the initials "ER" |
| PatientTable.StatusColor | src/components/dashboard/PatientTable.tsx:30-43 | the switch is total. Only "Critical" pulses. The four named statuses get hover and dark shades; every other string gets the plain default class |
| PatientTable.PatientBadge | src/components/dashboard/PatientTable.tsx:30-43 | a Discharged patient, which the switch does not name, gets the default class; only a Critical patient's badge pulses |
| PatientTable.PatientBadgesDistinct | src/components/dashboard/PatientTable.tsx:30-43 | different patient statuses get different badges |
| PatientSearch.Matches | src/pages/PatientsPage.tsx:30-31 | a query longer than both the name and the id never matches |
| PatientSearch.FilteredPatients | src/pages/PatientsPage.tsx:29-32 | no more rows than patients, each a patient of the roster that matches the query |
| PatientSearch.SearchContents | src/pages/PatientsPage.tsx:29-32 | the rows are a subsequence of the roster; a patient is kept iff its lowered name or lowered id includes the lowered query; kept patients keep their multiplicities |
| PatientSearch.IncludesEmpty | src/pages/PatientsPage.tsx:30 | every string includes the empty string |
| PatientSearch.EmptyQueryShowsAll | src/pages/PatientsPage.tsx:29-32 | the empty query keeps the whole roster |
| PatientSearch.QueryCaseIgnored | src/pages/PatientsPage.tsx:30-31 | upper- or lower-casing the query does not change the result |
| PatientSearch.MatchNarrows | src/pages/PatientsPage.tsx:30-31 | a patient matching a query matches every substring of that query |
| PatientSearch.TypingNarrows | src/pages/PatientsPage.tsx:30-31 | if q is a substring of q', the rows for q' are a subsequence of the rows for q |
| PatientSearch.FoundById | src/pages/PatientsPage.tsx:30-31 | searching for a patient's id, in either case, finds that patient |
| Alerts.IsAlert | src/pages/AlertsPage.tsx:21 | a patient needs attention iff it is neither Stable, Waiting nor Discharged |
| Alerts.AlertList | src/pages/AlertsPage.tsx:21 | no more alerts than patients, each a patient of the roster that needs attention |
| Alerts.AlertsAfterFetch | src/pages/AlertsPage.tsx:17-28 | a failed fetch leaves the alert list at its initial value, empty |
| Alerts.AlertTitle | src/pages/AlertsPage.tsx:73 | the title is "Critical Vitals Alert" iff the status is Critical, otherwise "Observation Required" |
| Alerts.AlertBadge | src/pages/AlertsPage.tsx:79 | the badge variant is destructive iff the status is Critical |
| Alerts.Card | src/pages/AlertsPage.tsx:66-81 | a card shows its patient's id and status, and has the critical title exactly when it has the destructive badge |
| Alerts.View | src/pages/AlertsPage.tsx:48-66 | loading shows the placeholders; otherwise an empty list shows "All Clear", and a non-empty one shows one card per alert, in order |
| Alerts.AlertListContents | src/pages/AlertsPage.tsx:21 | the alert list is a subsequence of the roster and holds exactly the Critical and Observation patients, with their multiplicities; Stable, Waiting and Discharged patients never appear |
| Alerts.AllClearIffNoAlerts | src/pages/AlertsPage.tsx:54 | after a successful fetch, "All Clear" is shown iff no patient is Critical or under Observation |
| Alerts.FailedFetchShowsAllClear | src/pages/AlertsPage.tsx:23-28 | a failed fetch also ends on "All Clear" |
| Alerts.AllAlertsShown | src/pages/AlertsPage.tsx:21 | a roster of alert patients only is kept whole |
| AdmitPatient.Admissible | src/components/patient/AdmitPatientDialog.tsx:35-41 | an admissible form has a name, a numeric age, a condition and a room |
| AdmitPatient.Message | src/components/patient/AdmitPatientDialog.tsx:36-40 | the schema's own messages; the number and enum checks have none of their own |
| AdmitPatient.AgeErrors | src/components/patient/AdmitPatientDialog.tsx:37 | the age field reports at most one issue, and none iff it is a number from 0 to 120 |
| AdmitPatient.Validate | src/components/patient/AdmitPatientDialog.tsx:35-41 | there are no issues iff the name has at least 2 characters, the age is a number from 0 to 120, the gender is Male, Female or Other, the condition has at least 2 characters and the room at least 1; each issue is reported iff its field fails its check |
| AdmitPatient.DefaultsRejected | src/components/patient/AdmitPatientDialog.tsx:52-58 | the default values fail the schema on name, age, condition and room |
| AdmitPatient.AgeBounds | src/components/patient/AdmitPatientDialog.tsx:37 | with the other fields acceptable, an age is accepted iff it is between 0 and 120, both included |
| AdmitPatient.FieldOf | src/components/patient/AdmitPatientDialog.tsx:35-41 | the three age checks are reported under the age field and no other issue is |
| AdmitPatient.ChangedFields | src/components/patient/AdmitPatientDialog.tsx:35-41 | a field is among the changed ones iff its values differ |
| AdmitPatient.UnchangedFieldKeepsIssues | src/components/patient/AdmitPatientDialog.tsx:35-41 | the schema checks each field on its own: a field with the same value in two forms has the same issues in both |
| AdmitPatient.IssuesMembership | src/components/patient/AdmitPatientDialog.tsx:35-41 | an issue is shown iff the values have it and its field has been validated |
| AdmitPatient.NoFieldNoIssue | src/components/patient/AdmitPatientDialog.tsx:50-58 | with no field validated no issue is shown |
| AdmitPatient.AllFieldsAllIssues | src/components/patient/AdmitPatientDialog.tsx:100 | with every field validated the issues shown are exactly the schema's issues, in its order |
| AdmitPatient.RevalidateChanged | src/components/patient/AdmitPatientDialog.tsx:50-58 | re-validating the changed fields shows exactly the new issues of those fields and keeps the shown issues of every other field |
| AdmitPatient.NothingValidated | src/components/patient/AdmitPatientDialog.tsx:50-58 | before any field is validated, an edit shows no issue in a field it leaves alone, as before it |
| AdmitPatient.AdmitDialog.constructor | src/components/patient/AdmitPatientDialog.tsx:48-58 | the dialog starts closed, not submitting, not yet submitted, with the default values, no field validated and no issue shown |
| AdmitPatient.AdmitDialog.OnOpenChange | src/components/patient/AdmitPatientDialog.tsx:83 | `onOpenChange` sets `open` and nothing else |
| AdmitPatient.AdmitDialog.Cancel | src/components/patient/AdmitPatientDialog.tsx:178 | Cancel closes the dialog and keeps the typed values |
| AdmitPatient.AdmitDialog.Edit | src/components/patient/AdmitPatientDialog.tsx:50-59 | typing changes the values; before the first submit nothing is validated and no issue is shown; after it every changed field joins the validated ones and shows exactly its new issues, while every field left alone keeps the issues it showed; open, submitting, the submitted flag and the POSTed bodies are untouched |
| AdmitPatient.AdmitDialog.Submit | src/components/patient/AdmitPatientDialog.tsx:60-66 | only the open dialog can be submitted; nothing happens while a submission is in flight (line 181); otherwise the submit is recorded, every field is validated and the issues shown are exactly the schema's issues of the values. Only values without issues start a submission, which sets `isSubmitting` and POSTs exactly those values. Every POSTed body satisfies the schema |
| AdmitPatient.AdmitDialog.Settle | src/components/patient/AdmitPatientDialog.tsx:67-80 | success closes the dialog and resets the form to its defaults with no field validated and no issue shown, but the form still counts as submitted (`handleSubmit` marks it so after `onSubmit`, line 100); failure leaves `open`, the values, the validated fields and the issues as they were; either way `isSubmitting` ends false |
| AdmitPatient.TypeAfterAdmission | src/components/patient/AdmitPatientDialog.tsx:70-71 | after a successful admission the reset form counts as submitted, so typing a one-letter name shows the name issue at once, and no other |
| AdmitPatient.Admit | src/components/patient/AdmitPatientDialog.tsx:60-81 | a whole admission: POSTed once iff the values pass; closed and reset on success; still open with the values kept on failure; never left submitting |
| ClinicalNotes.MockNotes | src/components/patient/ClinicalNotes.tsx:15-28 | two mock notes, ids "1" and "2", one day and half a day before load time |
| ClinicalNotes.NotBlank | src/components/patient/ClinicalNotes.tsx:34 | a text starting with a non-whitespace character passes the blank check |
| ClinicalNotes.NotesPanel.constructor | src/components/patient/ClinicalNotes.tsx:30-32 | the panel starts with the mock notes, an empty draft and the editor hidden; every note is signed and not blank |
| ClinicalNotes.NotesPanel.SetDraft | src/components/patient/ClinicalNotes.tsx:68 | typing changes the draft only |
| ClinicalNotes.NotesPanel.ToggleAdding | src/components/patient/ClinicalNotes.tsx:56 | the plus button flips `isAdding` and keeps the draft and the notes |
| ClinicalNotes.NotesPanel.Cancel | src/components/patient/ClinicalNotes.tsx:72 | Cancel hides the editor without clearing the draft or touching the notes |
| ClinicalNotes.NotesPanel.HandleSave | src/components/patient/ClinicalNotes.tsx:33-45 | a blank draft changes nothing. Any other draft is prepended as one note, untrimmed, signed "Dr. Sarah Chen", with the given id and time; the old notes follow in order; the draft is cleared and the editor hidden |
| ClinicalNotes.SaveTwice | src/components/patient/ClinicalNotes.tsx:33-45 | a second save right after the first adds nothing |
| AppointmentCard.StatusBadge | src/components/dashboard/AppointmentCard.tsx:24-37 | every appointment status badge has a dark shade, and none has a hover shade or pulses |
| AppointmentCard.BorderColors | src/components/dashboard/AppointmentCard.tsx:55-60 | each status turns on exactly one left-border colour |
| AppointmentCard.Clock | src/components/dashboard/AppointmentCard.tsx:69 | the clock shown holds no space; `TimeBoxParts` gives its value |
| AppointmentCard.Period | src/components/dashboard/AppointmentCard.tsx:66 | the period shown holds no space; `TimeBoxParts` gives its value |
| AppointmentCard.StatusClassesDistinct | src/components/dashboard/AppointmentCard.tsx:24-60 | each status gets exactly one left border; different statuses get different badges and different borders |
| AppointmentCard.TypeIcon | src/components/dashboard/AppointmentCard.tsx:38-45 | the video icon iff the type is Video; In-Person and Emergency get the map pin |
| AppointmentCard.LocationLabel | src/components/dashboard/AppointmentCard.tsx:87 | "Telehealth" for video calls; otherwise the room when it is present and non-empty, and "Room TBD" when it is missing or empty; never empty |
| AppointmentCard.TimeBoxParts | src/components/dashboard/AppointmentCard.tsx:66-69 | a time "clock period" shows the clock below and the period above |
| AppointmentCard.TimeBoxExample | src/components/dashboard/AppointmentCard.tsx:66-69 | "09:00 AM" shows "AM" over "09:00" |
| AppointmentCard.View | src/components/dashboard/AppointmentCard.tsx:55-95 | a card has at most two initials and exactly one border colour. Its location is never empty. It shows the video icon iff the appointment is a video call, and then the location reads "Telehealth" |
| Schedule.DailyAppointments | src/pages/SchedulePage.tsx:69-70 | today's date gets the four mock appointments, any other date none |
| Schedule.HourOf | src/pages/SchedulePage.tsx:74 | `parseInt(time.split(":")[0])`, NaN as `None`; `HourKey` and `TimeKey` state its values |
| Schedule.InSlot | src/pages/SchedulePage.tsx:76-83 | the test `getAppointmentsForSlot` filters with; `InSlotIff` states it: equal periods and the same numeric hour |
| Schedule.AppointmentsForSlot | src/pages/SchedulePage.tsx:71-84 | a slot never lists more appointments than the day has, and lists only the day's appointments that match it |
| Schedule.CountIsOccurrences | src/pages/SchedulePage.tsx:125-131 | filtering on a status keeps exactly as many appointments as that status occurs among the day's |
| Schedule.CountWithStatus | src/pages/SchedulePage.tsx:125-131 | a status count is the number of the day's appointments with that status (its occurrences among their statuses); it is at most the total, and zero iff no appointment has the status |
| Schedule.Stats | src/pages/SchedulePage.tsx:118-131 | the total is the number of the day's appointments; the confirmed and pending figures are the numbers of appointments with those statuses, each at most the total |
| Schedule.SlotContents | src/pages/SchedulePage.tsx:76 | a slot's list is a subsequence of the day's appointments, holding exactly those that match the slot, each as often as in the day's list |
| Schedule.InSlotIff | src/pages/SchedulePage.tsx:80-82 | an appointment matches a slot iff the two periods are equal and the two hours are the same number; the 12 o'clock branch agrees with this rule |
| Schedule.TwoDigits | src/pages/SchedulePage.tsx:74 | two decimal digits denote ten times the first plus the second |
| Schedule.HourKey | src/pages/SchedulePage.tsx:74 | a time starting with two digits and a colon has the hour those digits denote |
| Schedule.PeriodKey | src/pages/SchedulePage.tsx:75 | a time "HH:MM P" has the period P |
| Schedule.TimeKey | src/pages/SchedulePage.tsx:74-78 | a time "HH:MM P" reads as hour HH and period P, whatever its minutes |
| Schedule.MinutesIgnored | src/pages/SchedulePage.tsx:77-82 | two times that differ only in their minutes match the same slots |
| Schedule.SlotForm | src/pages/SchedulePage.tsx:58-62 | every slot is two decimal digits, ":00", a space and "AM" or "PM" |
| Schedule.SlotHour | src/pages/SchedulePage.tsx:74 | a time "HH:00 P" reads as the hour HH |
| Schedule.SlotPeriod | src/pages/SchedulePage.tsx:75 | a time "HH:00 P" reads as the period P |
| Schedule.TwoDigitsInjective | src/pages/SchedulePage.tsx:74 | two-digit hours with equal values have equal digits |
| Schedule.AtMostOneSlot | src/pages/SchedulePage.tsx:71-83 | no appointment matches two different slots |
| Schedule.ShownOnce | src/pages/SchedulePage.tsx:71-83 | an appointment appears in at most one slot's list |
| Schedule.StatsBound | src/pages/SchedulePage.tsx:120-131 | the Confirmed count plus the Pending count never exceeds the total |
| Schedule.OtherDayIsEmpty | src/pages/SchedulePage.tsx:69-70 | on any day but today every slot is empty and every count is 0 |
| Schedule.NineAm | src/pages/SchedulePage.tsx:77-78 | "09:00 AM" reads as 9 AM |
| Schedule.TenThirtyAm | src/pages/SchedulePage.tsx:77-78 | "10:30 AM" reads as 10 AM |
| Schedule.OnePm | src/pages/SchedulePage.tsx:77-78 | "01:00 PM" reads as 1 PM |
| Schedule.TwoFifteenPm | src/pages/SchedulePage.tsx:77-78 | "02:15 PM" reads as 2 PM |
| Schedule.TenAm | src/pages/SchedulePage.tsx:74-75 | the slot "10:00 AM" reads as 10 AM |
| Schedule.TwoPm | src/pages/SchedulePage.tsx:74-75 | the slot "02:00 PM" reads as 2 PM |
| Schedule.MockKeys | src/pages/SchedulePage.tsx:13-57 | today's four appointments read as 9 AM, 10 AM, 1 PM and 2 PM |
| Schedule.MockSlot | src/pages/SchedulePage.tsx:76-83 | a slot's list over the four mock appointments, one by one |
| Schedule.TenOClockSlot | src/pages/SchedulePage.tsx:71-84 | the 10:30 appointment is listed, alone, under the "10:00 AM" slot |
| Schedule.TwoOClockSlot | src/pages/SchedulePage.tsx:71-84 | the 2:15 appointment is listed, alone, under the "02:00 PM" slot |
| Schedule.MockStats | src/pages/SchedulePage.tsx:118-133 | today shows 4 appointments, 2 confirmed and 1 pending |

## Left out

- The generic keyed store under the entities (`IndexedEntity` in `worker/core-utils`, which is not part of this model) is left out: storage, the id index, seeding an empty store, and returning the default record for a missing key. An entity is modelled as one key and the record stored under it.
- The lost update that two concurrent read-modify-write `mutate` calls can cause is a concurrency concern and is not modelled.
- `crypto.randomUUID()`, `Date.now()`, `new Date()` and `toISOString` are parameters. That ids are unique is not assumed anywhere.
- The date-fns calls are reduced to an `isToday` input and millisecond timestamps: `isSameDay`, `addDays`, `subDays` and `format`.
- Left out as I/O and navigation: HTTP requests, `toast`, `console.error`, `navigate`, `window.location.reload` and the `onSuccess` callback. A request's outcome is a parameter (`ok`, `FetchOutcome`).
- The mock chats, messages and users (`@shared/mock-data`) are not part of this model. The seed grouping is stated for any lists of chats and messages, and the `UserEntity` seed is not modelled.
- `z.coerce.number()` is not modelled: the age is an integer, or `None` when it does not coerce to a number. Non-integer ages and the coercion of strings are not modelled.
- Case mapping covers ASCII letters only. Full Unicode `toLowerCase`/`toUpperCase` is not modelled, including upper-casing that changes a string's length.
- Strings are sequences of characters. JavaScript's UTF-16 code units (which `n[0]`, `slice` and zod's `min` count) are not modelled.
- `parseInt` reads numbers exactly. Floating-point precision and `Infinity` for very long digit strings are not modelled. Temperatures are integers in tenths of a degree.
- Rendering is not modelled: layout, icons other than the card's type icon, charts, skeleton rows, and the pages and components that only present data.
- PatientTable.StatusColor: class strings are reduced to palette and flags. The Waiting badge's dark shade (`slate-800`) is not told apart from the other statuses' (`…-900/30`).
- AppointmentCard.View: the status badge is reduced the same way. The badge classes are compared only for equality.
- AdmitPatient.Validate: the library's own messages for a non-number age and an unknown gender are not modelled; `Message` returns `None` for them.
