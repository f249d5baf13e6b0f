/** The patient portal's history page: the signed-in patient's name is
    looked up, then the records filed under that name are listed. */
module PatientHistory {
  import opened Common
  import opened Lists
  import opened Entities

  /** `records.filter(record => record.patient_name === patientName)`. */
  function RecordsOf(records: seq<PatientRecord>, patientName: string): (r: seq<PatientRecord>)
    ensures forall x :: x in r <==> x in records && x.patientName == patientName
    ensures IsSubsequence(r, records)
    ensures forall x :: multiset(r)[x] == if x.patientName == patientName then multiset(records)[x] else 0
  {
    Filter(records, (x: PatientRecord) => x.patientName == patientName)
  }

  /** The `PatientHistory` component of the patient portal. */
  class PatientHistoryPage {
    var patientRecords: seq<PatientRecord>
    var patientName: string
    var loading: bool
    const userId: Option<int>

    constructor(userId: Option<int>)
      ensures patientRecords == [] && patientName == "" && loading && this.userId == userId
    {
      patientRecords := [];
      patientName := "";
      loading := true;
      this.userId := userId;
    }

    /** `fetchPatientName`: unlike the appointments page, a missing patient
        or a failed fetch leaves the name as it was. */
    method FetchPatientName(resp: Response<seq<Patient>>)
      modifies this
      ensures resp.Ok? && PatientOfUser(resp.body, userId).Some? ==>
        patientName == PatientOfUser(resp.body, userId).value.patientName
      ensures resp.Failed? || PatientOfUser(resp.body, userId).None? ==> patientName == old(patientName)
      ensures patientRecords == old(patientRecords) && loading == old(loading)
    {
      match resp {
        case Ok(ps) =>
          match PatientOfUser(ps, userId) {
            case Some(p) =>
              patientName := p.patientName;
            case None =>
          }
        case Failed(_) =>
      }
    }

    /** `fetchPatientRecords`: the only place `loading` is cleared. */
    method FetchPatientRecords(resp: Response<seq<PatientRecord>>)
      modifies this
      ensures !loading
      ensures resp.Ok? ==> patientRecords == RecordsOf(resp.body, patientName)
      ensures resp.Failed? ==> patientRecords == old(patientRecords)
      ensures patientName == old(patientName)
    {
      match resp {
        case Ok(records) =>
          patientRecords := RecordsOf(records, patientName);
        case Failed(_) =>
      }
      loading := false;
    }

    /** The two effects from the first render. Records are fetched only
        once a non-empty name is known; without it the page keeps loading,
        also when local storage holds no user. */
    method Mount(patients: Response<seq<Patient>>, records: Response<seq<PatientRecord>>)
      requires patientRecords == [] && patientName == "" && loading
      modifies this
      ensures patientName == "" ==> loading && patientRecords == []
      ensures userId.None? ==> patientName == ""
      ensures userId.Some? && patients.Ok? && PatientOfUser(patients.body, userId).Some? ==>
        patientName == PatientOfUser(patients.body, userId).value.patientName
      ensures !(userId.Some? && patients.Ok? && PatientOfUser(patients.body, userId).Some?) ==>
        patientName == ""
      ensures patientName != "" ==>
        userId.Some? && patients.Ok? && PatientOfUser(patients.body, userId).Some? &&
        patientName == PatientOfUser(patients.body, userId).value.patientName
      ensures patientName != "" ==>
        !loading &&
        (records.Ok? ==> patientRecords == RecordsOf(records.body, patientName)) &&
        (records.Failed? ==> patientRecords == [])
    {
      if userId.Some? {
        FetchPatientName(patients);
      }
      if patientName != "" {
        FetchPatientRecords(records);
      }
    }
  }
}
