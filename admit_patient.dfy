/** The admission dialog (src/components/patient/AdmitPatientDialog.tsx): the
    form schema its values are checked against, the values it starts from,
    and how submitting moves the dialog between open, submitting and
    closed. */
module AdmitPatient {
  import opened Wrappers

  /** The form's values. `age` is `None` while the field holds nothing that
      coerces to a number (it starts out `undefined`, which coerces to NaN). */
  datatype FormValues = FormValues(
    name: string,
    age: Option<int>,
    gender: string,
    condition: string,
    roomNumber: string)

  /** `defaultValues`. */
  const Defaults: FormValues := FormValues("", None, "Other", "", "")

  /** What `formSchema` asks of each field. */
  predicate Admissible(v: FormValues)
    ensures Admissible(v) ==> v.name != "" && v.age.Some? && v.condition != "" && v.roomNumber != ""
  {
    |v.name| >= 2
    && v.age.Some? && 0 <= v.age.value <= 120
    && v.gender in ["Male", "Female", "Other"]
    && |v.condition| >= 2
    && |v.roomNumber| >= 1
  }

  /** The issues the schema can report, one kind per failing check. */
  datatype FieldError =
    | NameTooShort
    | AgeNotANumber
    | AgeNegative
    | AgeTooLarge
    | GenderInvalid
    | ConditionTooShort
    | RoomMissing

  /** The message the form shows under the field; `None` where the schema
      gives no message of its own and the validation library's default is
      shown. */
  function Message(e: FieldError): (m: Option<string>)
    ensures m.None? <==> e == AgeNotANumber || e == GenderInvalid
  {
    match e
    case NameTooShort => Some("Name must be at least 2 characters")
    case AgeNotANumber => None
    case AgeNegative => Some("Age must be a positive number")
    case AgeTooLarge => Some("Invalid age")
    case GenderInvalid => None
    case ConditionTooShort => Some("Condition is required")
    case RoomMissing => Some("Room number is required")
  }

  /** The checks of the age field: a number first, then `min(0)` and
      `max(120)`. */
  function AgeErrors(age: Option<int>): (errs: seq<FieldError>)
    ensures |errs| <= 1
    ensures errs == [] <==> age.Some? && 0 <= age.value <= 120
  {
    match age
    case None => [AgeNotANumber]
    case Some(a) => if a < 0 then [AgeNegative] else if a > 120 then [AgeTooLarge] else []
  }

  /** The issues of parsing `v` with `formSchema`, field by field in the
      schema's order; the form is submitted only when there are none. */
  function Validate(v: FormValues): (errs: seq<FieldError>)
    ensures errs == [] <==> Admissible(v)
    ensures |errs| <= 5
    ensures NameTooShort in errs <==> |v.name| < 2
    ensures AgeNotANumber in errs <==> v.age.None?
    ensures AgeNegative in errs <==> v.age.Some? && v.age.value < 0
    ensures AgeTooLarge in errs <==> v.age.Some? && v.age.value > 120
    ensures GenderInvalid in errs <==> v.gender !in ["Male", "Female", "Other"]
    ensures ConditionTooShort in errs <==> |v.condition| < 2
    ensures RoomMissing in errs <==> |v.roomNumber| < 1
  {
    (if |v.name| < 2 then [NameTooShort] else [])
    + AgeErrors(v.age)
    + (if v.gender !in ["Male", "Female", "Other"] then [GenderInvalid] else [])
    + (if |v.condition| < 2 then [ConditionTooShort] else [])
    + (if |v.roomNumber| < 1 then [RoomMissing] else [])
  }

  /** The form as it opens fails the schema on every field but the gender:
      name, age, condition and room are all reported. */
  lemma DefaultsRejected()
    ensures Validate(Defaults) == [NameTooShort, AgeNotANumber, ConditionTooShort, RoomMissing]
    ensures !Admissible(Defaults)
  {
  }

  /** With every other field acceptable, an age is accepted exactly from 0
      to 120, both included. */
  lemma AgeBounds(v: FormValues, age: int)
    requires |v.name| >= 2 && v.gender in ["Male", "Female", "Other"]
    requires |v.condition| >= 2 && |v.roomNumber| >= 1
    ensures Admissible(v.(age := Some(age))) <==> 0 <= age <= 120
  {
  }

  /** The form's fields, as react-hook-form keys its errors. */
  datatype Field = NameField | AgeField | GenderField | ConditionField | RoomField

  const AllFields: set<Field> := {NameField, AgeField, GenderField, ConditionField, RoomField}

  /** The field an issue is reported under. */
  function FieldOf(e: FieldError): (f: Field)
    ensures f == AgeField <==> e in [AgeNotANumber, AgeNegative, AgeTooLarge]
  {
    match e
    case NameTooShort => NameField
    case AgeNotANumber => AgeField
    case AgeNegative => AgeField
    case AgeTooLarge => AgeField
    case GenderInvalid => GenderField
    case ConditionTooShort => ConditionField
    case RoomMissing => RoomField
  }

  /** Whether `u` and `v` hold the same value in field `f`. */
  predicate SameField(f: Field, u: FormValues, v: FormValues) {
    match f
    case NameField => u.name == v.name
    case AgeField => u.age == v.age
    case GenderField => u.gender == v.gender
    case ConditionField => u.condition == v.condition
    case RoomField => u.roomNumber == v.roomNumber
  }

  /** The fields whose values differ between `u` and `v`. */
  function ChangedFields(u: FormValues, v: FormValues): (changed: set<Field>)
    ensures forall f :: f in changed <==> !SameField(f, u, v)
  {
    set f | f in AllFields && !SameField(f, u, v)
  }

  /** The schema checks each field on its own: a field holding the same
      value in two forms has the same issues in both. */
  lemma UnchangedFieldKeepsIssues(u: FormValues, v: FormValues, e: FieldError)
    requires SameField(FieldOf(e), u, v)
    ensures e in Validate(u) <==> e in Validate(v)
  {
  }

  /** The issues of `v` in the fields that have been validated, in the
      schema's order. */
  function Issues(v: FormValues, shown: set<Field>): seq<FieldError> {
    (if NameField in shown && |v.name| < 2 then [NameTooShort] else [])
    + (if AgeField in shown then AgeErrors(v.age) else [])
    + (if GenderField in shown && v.gender !in ["Male", "Female", "Other"] then [GenderInvalid] else [])
    + (if ConditionField in shown && |v.condition| < 2 then [ConditionTooShort] else [])
    + (if RoomField in shown && |v.roomNumber| < 1 then [RoomMissing] else [])
  }

  /** With no field validated no issue is shown. */
  lemma NoFieldNoIssue(v: FormValues)
    ensures Issues(v, {}) == []
  {
  }

  /** With every field validated, every issue of the values is shown, in
      the schema's order. */
  lemma AllFieldsAllIssues(v: FormValues)
    ensures Issues(v, AllFields) == Validate(v)
  {
  }

  /** An issue is shown exactly when the values have it and its field has
      been validated. */
  lemma IssuesMembership(v: FormValues, shown: set<Field>, e: FieldError)
    ensures e in Issues(v, shown) <==> e in Validate(v) && FieldOf(e) in shown
  {
    match e
    case NameTooShort =>
    case AgeNotANumber =>
    case AgeNegative =>
    case AgeTooLarge =>
    case GenderInvalid =>
    case ConditionTooShort =>
    case RoomMissing =>
  }

  /** Re-validating the fields changed from `u` to `v`: an issue of a
      changed field is shown exactly when `v` has it, and an issue of a
      field left alone is shown exactly when it was shown before. */
  lemma RevalidateChanged(u: FormValues, v: FormValues, shown: set<Field>, e: FieldError)
    ensures !SameField(FieldOf(e), u, v) ==>
      (e in Issues(v, shown + ChangedFields(u, v)) <==> e in Validate(v))
    ensures SameField(FieldOf(e), u, v) ==>
      (e in Issues(v, shown + ChangedFields(u, v)) <==> e in Issues(u, shown))
  {
    IssuesMembership(v, shown + ChangedFields(u, v), e);
    IssuesMembership(u, shown, e);
    if SameField(FieldOf(e), u, v) {
      UnchangedFieldKeepsIssues(u, v, e);
    }
  }

  /** Editing a form nobody has submitted: with no field validated, the
      edit shows no issue and the fields left alone keep theirs (none). */
  lemma NothingValidated(u: FormValues, v: FormValues, e: FieldError)
    ensures SameField(FieldOf(e), u, v) ==> (e in Issues(v, {}) <==> e in Issues(u, {}))
  {
    IssuesMembership(v, {}, e);
    IssuesMembership(u, {}, e);
  }

  /** The dialog's state: whether it is open, whether a submission is in
      flight, whether the form counts as submitted, the form's values, the
      fields validated since the form was last reset and the issues shown
      for them, and the bodies POSTed to the patient roster so far. */
  class AdmitDialog {
    var open: bool
    var isSubmitting: bool
    var submitted: bool
    var values: FormValues
    var validated: set<Field>
    var errors: seq<FieldError>
    var requests: seq<FormValues>

    /** Every body sent to the server passed the schema. The issues shown
        are those of the current values in the validated fields, and no
        field is validated before the first submit. A submission in
        flight was started by a submit. */
    predicate Valid()
      reads this
    {
      && (forall k :: 0 <= k < |requests| ==> Admissible(requests[k]))
      && errors == Issues(values, validated)
      && (!submitted ==> validated == {})
      && (isSubmitting ==> submitted)
    }

    constructor()
      ensures Valid()
      ensures !open && !isSubmitting && !submitted && values == Defaults
      ensures validated == {} && errors == [] && requests == []
    {
      NoFieldNoIssue(Defaults);
      open := false;
      isSubmitting := false;
      submitted := false;
      values := Defaults;
      validated := {};
      errors := [];
      requests := [];
    }

    /** `onOpenChange={setOpen}`: the trigger opens the dialog, the close
        button and the overlay close it. */
    method OnOpenChange(o: bool)
      requires Valid()
      modifies this
      ensures Valid()
      ensures open == o
      ensures isSubmitting == old(isSubmitting) && submitted == old(submitted) && values == old(values)
      ensures validated == old(validated) && errors == old(errors) && requests == old(requests)
    {
      open := o;
    }

    /** The Cancel button: closes the dialog and keeps what was typed. */
    method Cancel()
      requires Valid()
      modifies this
      ensures Valid()
      ensures !open
      ensures isSubmitting == old(isSubmitting) && submitted == old(submitted) && values == old(values)
      ensures validated == old(validated) && errors == old(errors) && requests == old(requests)
    {
      open := false;
    }

    /** Typing into the fields. Before the first submit nothing is
        validated. Once the form counts as submitted, each changed field is
        validated again and shows its new issues, while every field left
        alone keeps the issues it showed. */
    method Edit(v: FormValues)
      requires Valid()
      modifies this
      ensures Valid()
      ensures values == v
      ensures !submitted ==> validated == {} && errors == []
      ensures submitted ==> validated == old(validated) + ChangedFields(old(values), v)
      ensures submitted ==> forall e :: !SameField(FieldOf(e), old(values), v) ==> (e in errors <==> e in Validate(v))
      ensures forall e :: SameField(FieldOf(e), old(values), v) ==> (e in errors <==> e in old(errors))
      ensures open == old(open) && isSubmitting == old(isSubmitting) && submitted == old(submitted)
      ensures requests == old(requests)
    {
      if submitted {
        forall e {
          RevalidateChanged(values, v, validated, e);
        }
        validated := validated + ChangedFields(values, v);
      } else {
        forall e {
          NothingValidated(values, v, e);
        }
        NoFieldNoIssue(v);
      }
      values := v;
      errors := Issues(v, validated);
    }

    /** Submitting the form: nothing while a submission is in flight (the
        submit button is disabled); otherwise every field is validated, and
        only values that pass start `onSubmit`, which sets `isSubmitting`
        and POSTs them. */
    method Submit() returns (started: bool)
      requires Valid() && open
      modifies this
      ensures Valid()
      ensures started <==> !old(isSubmitting) && Admissible(old(values))
      ensures submitted
      ensures !old(isSubmitting) ==> validated == AllFields && errors == Validate(values)
      ensures old(isSubmitting) ==> validated == old(validated) && errors == old(errors)
      ensures started ==> isSubmitting && requests == old(requests) + [old(values)]
      ensures !started ==> isSubmitting == old(isSubmitting) && requests == old(requests)
      ensures open == old(open) && values == old(values)
    {
      if isSubmitting {
        return false;
      }
      AllFieldsAllIssues(values);
      submitted := true;
      validated := AllFields;
      errors := Issues(values, validated);
      if errors != [] {
        return false;
      }
      isSubmitting := true;
      requests := requests + [values];
      return true;
    }

    /** The end of `onSubmit`: on success the dialog closes and the form is
        reset to its defaults, which clears the issues and the validated
        fields; on failure both stay as they were; either way
        `isSubmitting` ends false. The form counts as submitted afterwards
        in both cases: `handleSubmit` marks it so once `onSubmit` returns,
        after the reset, so the reset form validates each field as it is
        typed. */
    method Settle(ok: bool)
      requires Valid()
      modifies this
      ensures Valid()
      ensures !isSubmitting && submitted == old(submitted)
      ensures ok ==> !open && values == Defaults && validated == {} && errors == []
      ensures !ok ==> open == old(open) && values == old(values) && validated == old(validated) && errors == old(errors)
      ensures requests == old(requests)
    {
      if ok {
        NoFieldNoIssue(Defaults);
        open := false;
        values := Defaults;
        validated := {};
        errors := [];
      }
      isSubmitting := false;
    }
  }

  /** After a successful admission the reset form is empty and shows no
      issue, but it counts as submitted: typing a one-letter name into it
      shows the name issue straight away. */
  method TypeAfterAdmission(d: AdmitDialog, name: string)
    requires d.Valid() && d.submitted && d.values == Defaults && d.errors == []
    requires |name| == 1
    modifies d
    ensures d.Valid()
    ensures NameTooShort in d.errors && forall e :: e in d.errors ==> e == NameTooShort
  {
    d.Edit(Defaults.(name := name));
  }

  /** A whole admission from an open dialog: the values are POSTed once,
      the dialog closes and the form is reset when the server accepts them,
      and the dialog stays open with the values kept when it does not. */
  method Admit(d: AdmitDialog, v: FormValues, ok: bool) returns (started: bool)
    requires d.Valid() && d.open && !d.isSubmitting
    modifies d
    ensures d.Valid()
    ensures started <==> Admissible(v)
    ensures !d.isSubmitting
    ensures started ==> d.requests == old(d.requests) + [v]
    ensures !started ==> d.requests == old(d.requests) && d.open && d.values == v && d.errors == Validate(v)
    ensures started && ok ==> !d.open && d.values == Defaults
    ensures started && !ok ==> d.open && d.values == v
  {
    d.Edit(v);
    started := d.Submit();
    if started {
      d.Settle(ok);
    }
  }
}
