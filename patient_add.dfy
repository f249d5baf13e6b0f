/** The patient registration form: `handleChange` and the checks of
    `addPatient`. */
module PatientAdd {
  import opened Common
  import opened Text

  const AllFieldsRequired := "All fields are required."
  const AgeNotPositive := "Age must be a positive number."
  const AddFailed := "Adding patient unsuccessful!"

  /** The seven keys of `patientData`, in the order of the form. */
  const PatientFields: seq<string> :=
    ["patient_name", "age", "dob", "contact_no", "emergency_contact_no", "emergency_relation", "allergy"]

  /** The body of the create request: `age` is `parseInt(age)` (`None` for
      NaN) and the other six fields are sent as they were typed. */
  datatype PatientRequest = PatientRequest(
    patientName: string, age: Option<int>, dob: string, contactNo: string,
    emergencyContactNo: string, emergencyRelation: string, allergy: string)

  predicate AllFilled(data: map<string, string>) {
    forall i :: 0 <= i < |PatientFields| ==> Get(data, PatientFields[i]) != ""
  }

  /** `age <= 0` on the typed text. The string is converted to a number
      first; text that is not an integer literal converts to NaN here and
      the comparison is false. */
  predicate AgeNotAbove0(age: string)
    ensures AgeNotAbove0(age) <==>
      ParseInt(age).Some? && (age[0] == '-' || forall i :: 0 <= i < |age| ==> age[i] == '0')
  {
    var n := ParseInt(age);
    n.Some? && n.value <= 0
  }

  function RequestOf(data: map<string, string>): PatientRequest {
    PatientRequest(Get(data, "patient_name"), ParseInt(Get(data, "age")), Get(data, "dob"),
                   Get(data, "contact_no"), Get(data, "emergency_contact_no"),
                   Get(data, "emergency_relation"), Get(data, "allergy"))
  }

  /** The checks of `addPatient`, in order: the required fields first, then
      the age. */
  function CheckPatient(data: map<string, string>): (c: Checked<PatientRequest>)
    ensures c == Rejected(AllFieldsRequired) <==> exists i :: 0 <= i < |PatientFields| && Get(data, PatientFields[i]) == ""
    ensures c == Rejected(AgeNotPositive) <==> AllFilled(data) && AgeNotAbove0(Get(data, "age"))
    ensures c.Accepted? <==> AllFilled(data) && !AgeNotAbove0(Get(data, "age"))
    ensures c.Accepted? ==> c.request == RequestOf(data)
  {
    if !AllFilled(data) then Rejected(AllFieldsRequired)
    else if AgeNotAbove0(Get(data, "age")) then Rejected(AgeNotPositive)
    else Accepted(RequestOf(data))
  }

  /** A missing field is reported even when the age is also wrong. */
  lemma RequiredBeforeAge(data: map<string, string>, k: string)
    requires k in PatientFields && Get(data, k) == ""
    ensures CheckPatient(data) == Rejected(AllFieldsRequired)
  {
    var i :| 0 <= i < |PatientFields| && PatientFields[i] == k;
  }

  /** An age of zero is refused once every field is filled. */
  lemma ZeroAgeRefused(data: map<string, string>)
    requires AllFilled(data)
    requires forall i :: 0 <= i < |Get(data, "age")| ==> Get(data, "age")[i] == '0'
    ensures CheckPatient(data) == Rejected(AgeNotPositive)
  {
    var age := Get(data, "age");
    assert age != "" by { assert Get(data, PatientFields[1]) != ""; }
    DigitsValueZero(age);
  }

  /** A negative age is refused once every field is filled. */
  lemma NegativeAgeRefused(data: map<string, string>)
    requires AllFilled(data)
    requires |Get(data, "age")| > 1 && Get(data, "age")[0] == '-' && AllDigits(Get(data, "age")[1..])
    ensures CheckPatient(data) == Rejected(AgeNotPositive)
  {
  }

  /** A filled form with a positive whole age is accepted, and the request
      carries that age as a number. */
  lemma PositiveAgeAccepted(data: map<string, string>)
    requires AllFilled(data)
    requires AllDigits(Get(data, "age")) && DigitsValue(Get(data, "age")) > 0
    ensures CheckPatient(data) == Accepted(RequestOf(data))
    ensures RequestOf(data).age == Some(DigitsValue(Get(data, "age")) as int)
  {
    assert Get(data, "age") != "" by { assert Get(data, PatientFields[1]) != ""; }
  }

  /** The `PatientAdd` component. */
  class PatientForm {
    var patientData: map<string, string>
    var error: string
    var navigatedTo: Option<string>
    var sent: seq<PatientRequest>

    constructor()
      ensures patientData == map k | k in PatientFields :: ""
      ensures error == "" && navigatedTo == None && sent == []
    {
      patientData := map k | k in PatientFields :: "";
      error := "";
      navigatedTo := None;
      sent := [];
    }

    /** `handleChange`: only the named field changes and the error is
        cleared. */
    method HandleChange(name: string, value: string)
      modifies this
      ensures patientData == old(patientData)[name := value]
      ensures error == ""
      ensures navigatedTo == old(navigatedTo) && sent == old(sent)
    {
      patientData := patientData[name := value];
      error := "";
    }

    /** `addPatient`: a rejected form sets the message and sends nothing;
        an accepted one sends the request, and `resp` is the server's
        answer. */
    method AddPatient(resp: Response<()>)
      modifies this
      ensures patientData == old(patientData)
      ensures match CheckPatient(patientData)
        case Rejected(m) => error == m && sent == old(sent) && navigatedTo == old(navigatedTo)
        case Accepted(req) =>
          sent == old(sent) + [req] &&
          (resp.Ok? ==> navigatedTo == Some("/patients") && error == old(error)) &&
          (resp.Failed? ==> error == ErrorMessage(resp.serverError, AddFailed) &&
                            navigatedTo == old(navigatedTo))
    {
      match CheckPatient(patientData)
      case Rejected(m) =>
        error := m;
      case Accepted(req) =>
        sent := sent + [req];
        match resp
        case Ok(_) =>
          navigatedTo := Some("/patients");
        case Failed(e) =>
          error := ErrorMessage(e, AddFailed);
    }
  }
}
