/** The hospital's patient-history page: the records of this hospital, the
    appointment list, and the edit and create forms that rewrite the record
    list. */
module HospitalPatientHistory {
  import opened Common
  import opened Lists
  import opened Entities

  /** `records.filter(record => record.hospital_name === hospitalName)`. */
  function RecordsOfHospital(records: seq<PatientRecord>, hospitalName: string): (r: seq<PatientRecord>)
    ensures forall x :: x in r <==> x in records && x.hospitalName == hospitalName
    ensures IsSubsequence(r, records)
    ensures forall x :: multiset(r)[x] == if x.hospitalName == hospitalName then multiset(records)[x] else 0
  {
    Filter(records, (x: PatientRecord) => x.hospitalName == hospitalName)
  }

  /** The appointment filter of `fetchAppointments`: it compares with the
      literal "Kings", so the hospital name passed in plays no part. */
  function KingsAppointments(xs: seq<Appointment>, hospitalName: string): (r: seq<Appointment>)
    ensures forall a :: a in r <==> a in xs && a.hospitalName == "Kings"
    ensures forall a :: multiset(r)[a] == if a.hospitalName == "Kings" then multiset(xs)[a] else 0
    ensures IsSubsequence(r, xs)
  {
    Filter(xs, (a: Appointment) => a.hospitalName == "Kings")
  }

  /** Whatever hospital is signed in, the appointment list is the same. */
  lemma KingsIgnoresHospital(xs: seq<Appointment>, h1: string, h2: string)
    ensures KingsAppointments(xs, h1) == KingsAppointments(xs, h2)
    ensures h1 != "Kings" ==> forall a :: a in KingsAppointments(xs, h1) ==> a.hospitalName != h1
  {
  }

  /** The seven fields both forms send; `hospitalName` is always the
      page's own hospital. */
  datatype RecordFields = RecordFields(
    patientName: string, hospitalName: string, doctorName: string, appointmentId: string,
    diagnosis: string, medicines: string, labTestReportLink: string)

  /** What the form's inputs hold. */
  datatype RecordForm = RecordForm(
    patientName: string, doctorName: string, appointmentId: string,
    diagnosis: string, medicines: string, labTestReportLink: string)

  /** `updatedData` / `newRecord`: the form's inputs and the page's hospital. */
  function FieldsOf(form: RecordForm, hospitalName: string): (f: RecordFields)
    ensures f.hospitalName == hospitalName
    ensures f.patientName == form.patientName && f.doctorName == form.doctorName
    ensures f.appointmentId == form.appointmentId && f.diagnosis == form.diagnosis
    ensures f.medicines == form.medicines && f.labTestReportLink == form.labTestReportLink
  {
    RecordFields(form.patientName, hospitalName, form.doctorName, form.appointmentId,
                 form.diagnosis, form.medicines, form.labTestReportLink)
  }

  /** `{ ...record, ...updatedData }`: every field but the id is overwritten. */
  function Merge(record: PatientRecord, f: RecordFields): (r: PatientRecord)
    ensures r.recordId == record.recordId
    ensures r.patientName == f.patientName && r.hospitalName == f.hospitalName
    ensures r.doctorName == f.doctorName && r.appointmentId == f.appointmentId
    ensures r.diagnosis == f.diagnosis && r.medicines == f.medicines
    ensures r.labTestReportLink == f.labTestReportLink
  {
    PatientRecord(record.recordId, f.patientName, f.hospitalName, f.doctorName,
                  f.appointmentId, f.diagnosis, f.medicines, f.labTestReportLink)
  }

  /** `prevRecords.map(record => record.record_id === id ? { ...record, ...f } : record)`. */
  function ReplaceById(records: seq<PatientRecord>, id: int, f: RecordFields): (r: seq<PatientRecord>)
    ensures |r| == |records|
    ensures forall i :: 0 <= i < |records| && records[i].recordId == id ==> r[i] == Merge(records[i], f)
    ensures forall i :: 0 <= i < |records| && records[i].recordId != id ==> r[i] == records[i]
  {
    seq(|records|, i requires 0 <= i < |records| =>
      if records[i].recordId == id then Merge(records[i], f) else records[i])
  }

  /** The ids of the list, in order, are unchanged by an edit, and
      repeating the same edit changes nothing more. */
  lemma ReplaceByIdProperties(records: seq<PatientRecord>, id: int, f: RecordFields)
    ensures forall i :: 0 <= i < |records| ==> ReplaceById(records, id, f)[i].recordId == records[i].recordId
    ensures ReplaceById(ReplaceById(records, id, f), id, f) == ReplaceById(records, id, f)
    ensures (forall i :: 0 <= i < |records| ==> records[i].recordId != id) ==> ReplaceById(records, id, f) == records
  {
  }

  /** An edit that carries the page's hospital keeps every shown record a
      record of that hospital. */
  lemma ReplaceKeepsHospital(records: seq<PatientRecord>, id: int, f: RecordFields, hospitalName: string)
    requires forall i :: 0 <= i < |records| ==> records[i].hospitalName == hospitalName
    requires f.hospitalName == hospitalName
    ensures forall i :: 0 <= i < |ReplaceById(records, id, f)| ==>
      ReplaceById(records, id, f)[i].hospitalName == hospitalName
  {
  }

  /** The `PatientHistory` component of the hospital portal. `sentUpdates`
      and `sentCreates` list the requests made. */
  class PatientHistoryPage {
    var patientRecords: seq<PatientRecord>
    var hospitalName: string
    var loading: bool
    var appointments: seq<Appointment>
    var isModalOpen: bool
    var isViewModalOpen: bool
    var isEditModalOpen: bool
    var selectedRecord: Option<PatientRecord>
    var sentUpdates: seq<(int, RecordFields)>
    var sentCreates: seq<RecordFields>

    constructor()
      ensures patientRecords == [] && hospitalName == "" && loading && appointments == []
      ensures !isModalOpen && !isViewModalOpen && !isEditModalOpen && selectedRecord == None
      ensures sentUpdates == [] && sentCreates == []
    {
      patientRecords := [];
      hospitalName := "";
      loading := true;
      appointments := [];
      isModalOpen := false;
      isViewModalOpen := false;
      isEditModalOpen := false;
      selectedRecord := None;
      sentUpdates := [];
      sentCreates := [];
    }

    /** `fetchHospitalName`: the first hospital owned by `userId` names the
        page; with none, or on a failed fetch, the name is unchanged. */
    method FetchHospitalName(userId: Option<int>, resp: Response<seq<Hospital>>)
      modifies this
      ensures resp.Ok? && HospitalOfUser(resp.body, userId).Some? ==>
        hospitalName == HospitalOfUser(resp.body, userId).value.hospitalName
      ensures resp.Failed? || HospitalOfUser(resp.body, userId).None? ==> hospitalName == old(hospitalName)
      ensures patientRecords == old(patientRecords) && loading == old(loading)
      ensures appointments == old(appointments) && selectedRecord == old(selectedRecord)
      ensures isModalOpen == old(isModalOpen) && isViewModalOpen == old(isViewModalOpen)
      ensures isEditModalOpen == old(isEditModalOpen)
      ensures sentUpdates == old(sentUpdates) && sentCreates == old(sentCreates)
    {
      match resp {
        case Ok(hs) =>
          match HospitalOfUser(hs, userId) {
            case Some(h) =>
              hospitalName := h.hospitalName;
            case None =>
          }
        case Failed(_) =>
      }
    }

    /** `fetchAppointments`, whatever its argument. */
    method FetchAppointments(resp: Response<seq<Appointment>>)
      modifies this
      ensures resp.Ok? ==> appointments == KingsAppointments(resp.body, hospitalName)
      ensures resp.Failed? ==> appointments == old(appointments)
      ensures patientRecords == old(patientRecords) && hospitalName == old(hospitalName)
      ensures loading == old(loading) && selectedRecord == old(selectedRecord)
      ensures isModalOpen == old(isModalOpen) && isViewModalOpen == old(isViewModalOpen)
      ensures isEditModalOpen == old(isEditModalOpen)
      ensures sentUpdates == old(sentUpdates) && sentCreates == old(sentCreates)
    {
      match resp
      case Ok(xs) =>
        appointments := KingsAppointments(xs, hospitalName);
      case Failed(_) =>
    }

    /** The effect on `hospitalName`: while it is empty nothing is fetched;
        otherwise the records are fetched, filtered to this hospital, and
        loading ends whether or not the fetch succeeded. */
    method OnHospitalNameChanged(resp: Response<seq<PatientRecord>>)
      modifies this
      ensures hospitalName == "" ==> patientRecords == old(patientRecords) && loading == old(loading)
      ensures hospitalName != "" ==> !loading
      ensures hospitalName != "" && resp.Ok? ==> patientRecords == RecordsOfHospital(resp.body, hospitalName)
      ensures resp.Failed? ==> patientRecords == old(patientRecords)
      ensures hospitalName == old(hospitalName) && appointments == old(appointments)
      ensures selectedRecord == old(selectedRecord)
      ensures isModalOpen == old(isModalOpen) && isViewModalOpen == old(isViewModalOpen)
      ensures isEditModalOpen == old(isEditModalOpen)
      ensures sentUpdates == old(sentUpdates) && sentCreates == old(sentCreates)
    {
      if hospitalName != "" {
        match resp {
          case Ok(records) =>
            patientRecords := RecordsOfHospital(records, hospitalName);
          case Failed(_) =>
        }
        loading := false;
      }
    }

    /** `handleViewAppointmentClick`, wired to the "View Appointments"
        button: it receives the click event rather than a record, so no
        record is selected, and the modal lists the page's appointments. */
    method HandleViewAppointmentClick()
      modifies this
      ensures selectedRecord == None && isViewModalOpen
      ensures patientRecords == old(patientRecords) && hospitalName == old(hospitalName)
      ensures loading == old(loading) && appointments == old(appointments)
      ensures isModalOpen == old(isModalOpen) && isEditModalOpen == old(isEditModalOpen)
      ensures sentUpdates == old(sentUpdates) && sentCreates == old(sentCreates)
    {
      selectedRecord := None;
      isViewModalOpen := true;
    }

    /** `handleEditClick`. */
    method HandleEditClick(record: PatientRecord)
      modifies this
      ensures selectedRecord == Some(record) && isEditModalOpen
      ensures patientRecords == old(patientRecords) && hospitalName == old(hospitalName)
      ensures loading == old(loading) && appointments == old(appointments)
      ensures isModalOpen == old(isModalOpen) && isViewModalOpen == old(isViewModalOpen)
      ensures sentUpdates == old(sentUpdates) && sentCreates == old(sentCreates)
    {
      selectedRecord := Some(record);
      isEditModalOpen := true;
    }

    /** `handleCreateClick`: the selection is cleared for a new record. */
    method HandleCreateClick()
      modifies this
      ensures selectedRecord == None && isModalOpen
      ensures patientRecords == old(patientRecords) && hospitalName == old(hospitalName)
      ensures loading == old(loading) && appointments == old(appointments)
      ensures isViewModalOpen == old(isViewModalOpen) && isEditModalOpen == old(isEditModalOpen)
      ensures sentUpdates == old(sentUpdates) && sentCreates == old(sentCreates)
    {
      selectedRecord := None;
      isModalOpen := true;
    }

    /** `handleEditFormSubmit`. With no selected record the request cannot be
        built and nothing is sent; otherwise the update is sent with the
        page's hospital, and only a successful one rewrites the records of
        that id. The edit modal closes on every path. */
    method HandleEditFormSubmit(form: RecordForm, resp: Response<()>)
      modifies this
      ensures !isEditModalOpen
      ensures selectedRecord.None? ==> sentUpdates == old(sentUpdates) && patientRecords == old(patientRecords)
      ensures selectedRecord.Some? ==>
        sentUpdates == old(sentUpdates) + [(selectedRecord.value.recordId, FieldsOf(form, hospitalName))]
      ensures selectedRecord.Some? && resp.Ok? ==>
        patientRecords == ReplaceById(old(patientRecords), selectedRecord.value.recordId, FieldsOf(form, hospitalName))
      ensures resp.Failed? ==> patientRecords == old(patientRecords)
      ensures selectedRecord == old(selectedRecord) && hospitalName == old(hospitalName)
      ensures loading == old(loading) && appointments == old(appointments)
      ensures isModalOpen == old(isModalOpen) && isViewModalOpen == old(isViewModalOpen)
      ensures sentCreates == old(sentCreates)
    {
      var updatedData := FieldsOf(form, hospitalName);
      match selectedRecord {
        case Some(sel) =>
          sentUpdates := sentUpdates + [(sel.recordId, updatedData)];
          match resp {
            case Ok(_) =>
              patientRecords := ReplaceById(patientRecords, sel.recordId, updatedData);
            case Failed(_) =>
          }
        case None =>
      }
      isEditModalOpen := false;
    }

    /** `handleCreateFormSubmit`: the new record is sent with the page's
        hospital; a successful answer is appended as the server returned
        it. The create modal closes on every path. */
    method HandleCreateFormSubmit(form: RecordForm, resp: Response<PatientRecord>)
      modifies this
      ensures !isModalOpen
      ensures sentCreates == old(sentCreates) + [FieldsOf(form, hospitalName)]
      ensures resp.Ok? ==> patientRecords == old(patientRecords) + [resp.body]
      ensures resp.Failed? ==> patientRecords == old(patientRecords)
      ensures selectedRecord == old(selectedRecord) && hospitalName == old(hospitalName)
      ensures loading == old(loading) && appointments == old(appointments)
      ensures isEditModalOpen == old(isEditModalOpen) && isViewModalOpen == old(isViewModalOpen)
      ensures sentUpdates == old(sentUpdates)
    {
      sentCreates := sentCreates + [FieldsOf(form, hospitalName)];
      match resp {
        case Ok(created) =>
          patientRecords := patientRecords + [created];
        case Failed(_) =>
      }
      isModalOpen := false;
    }

    /** The close buttons of the three modals. */
    method CloseModals(edit: bool, view: bool, create: bool)
      modifies this
      ensures isEditModalOpen == (old(isEditModalOpen) && !edit)
      ensures isViewModalOpen == (old(isViewModalOpen) && !view)
      ensures isModalOpen == (old(isModalOpen) && !create)
      ensures patientRecords == old(patientRecords) && selectedRecord == old(selectedRecord)
      ensures hospitalName == old(hospitalName) && loading == old(loading)
      ensures appointments == old(appointments)
      ensures sentUpdates == old(sentUpdates) && sentCreates == old(sentCreates)
    {
      if edit { isEditModalOpen := false; }
      if view { isViewModalOpen := false; }
      if create { isModalOpen := false; }
    }
  }
}
