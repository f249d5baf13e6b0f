/** The patient portal's "My Appointments" page: the signed-in patient's
    name is looked up, then the appointments booked under that name are
    listed. */
module MyAppointments {
  import opened Common
  import opened Lists
  import opened Entities

  /** `data.filter(appointment => appointment.patientName === patientName)`. */
  function AppointmentsOf(xs: seq<Appointment>, patientName: string): (r: seq<Appointment>)
    ensures forall a :: a in r <==> a in xs && a.patientName == patientName
    ensures IsSubsequence(r, xs)
    ensures forall a :: multiset(r)[a] == if a.patientName == patientName then multiset(xs)[a] else 0
  {
    Filter(xs, (a: Appointment) => a.patientName == patientName)
  }

  /** The name `fetchPatientName` stores: that of the first patient owned
      by the user, or '' when there is none or the fetch failed. */
  function PatientNameAfter(userId: Option<int>, resp: Response<seq<Patient>>): (name: string)
    ensures resp.Failed? ==> name == ""
    ensures resp.Ok? && PatientOfUser(resp.body, userId).None? ==> name == ""
    ensures resp.Ok? && PatientOfUser(resp.body, userId).Some? ==>
      name == PatientOfUser(resp.body, userId).value.patientName
  {
    match resp
    case Ok(ps) => (match PatientOfUser(ps, userId) case Some(p) => p.patientName case None => "")
    case Failed(_) => ""
  }

  /** The `MyAppointments` component; `userId` is `None` when local storage
      holds no user. */
  class MyAppointmentsPage {
    var appointments: seq<Appointment>
    var patientName: string
    var loading: bool
    const userId: Option<int>

    constructor(userId: Option<int>)
      ensures appointments == [] && patientName == "" && loading && this.userId == userId
    {
      appointments := [];
      patientName := "";
      loading := true;
      this.userId := userId;
    }

    /** `fetchPatientName`. */
    method FetchPatientName(resp: Response<seq<Patient>>)
      modifies this
      ensures patientName == PatientNameAfter(userId, resp)
      ensures appointments == old(appointments) && loading == old(loading)
    {
      match resp {
        case Ok(ps) =>
          match PatientOfUser(ps, userId) {
            case Some(p) =>
              patientName := p.patientName;
            case None =>
              patientName := "";
          }
        case Failed(_) =>
          patientName := "";
      }
    }

    /** `fetchAppointments`: loading ends whether or not the fetch
        succeeded. */
    method FetchAppointments(resp: Response<seq<Appointment>>)
      modifies this
      ensures !loading
      ensures resp.Ok? ==> appointments == AppointmentsOf(resp.body, patientName)
      ensures resp.Failed? ==> appointments == old(appointments)
      ensures patientName == old(patientName)
    {
      match resp {
        case Ok(xs) =>
          appointments := AppointmentsOf(xs, patientName);
        case Failed(_) =>
      }
      loading := false;
    }

    /** The two effects from the first render: without a user, loading ends
        and nothing is fetched; otherwise the name is looked up, and only a
        non-empty name leads to the appointment fetch. A user with no
        patient is left loading. */
    method Mount(patients: Response<seq<Patient>>, appointmentsResp: Response<seq<Appointment>>)
      requires appointments == [] && patientName == "" && loading
      modifies this
      ensures userId.None? ==> !loading && patientName == "" && appointments == []
      ensures userId.Some? ==> patientName == PatientNameAfter(userId, patients)
      ensures userId.Some? && patientName == "" ==> loading && appointments == []
      ensures userId.Some? && patientName != "" ==>
        !loading &&
        (appointmentsResp.Ok? ==> appointments == AppointmentsOf(appointmentsResp.body, patientName)) &&
        (appointmentsResp.Failed? ==> appointments == [])
    {
      if userId.Some? {
        FetchPatientName(patients);
        if patientName != "" {
          FetchAppointments(appointmentsResp);
        }
      } else {
        loading := false;
      }
    }
  }
}
